/** The ten content block field types (ContentBlockFields) and the
    behaviour each field subclass gives a field row: which storage slot it
    uses, its template context value and how `save_value` writes to it.

    In the source a row's Python class is swapped at construction time for
    the subclass whose name equals the stored `field_type`; here the row
    keeps its `fieldType` tag and every per-type behaviour is a `match` on
    it. */
module FieldTypes {
  import opened Wrappers

  datatype FieldType =
    | TextField
    | ContentField
    | ImageField
    | NestedField
    | CheckboxField
    | ChoiceField
    | ModelChoiceField
    | FileField
    | VideoField
    | EmbeddedVideoField

  /** The stored value of each member of ContentBlockFields. */
  function Name(t: FieldType): string {
    match t
    case TextField => "TextField"
    case ContentField => "ContentField"
    case ImageField => "ImageField"
    case NestedField => "NestedField"
    case CheckboxField => "CheckboxField"
    case ChoiceField => "ChoiceField"
    case ModelChoiceField => "ModelChoiceField"
    case FileField => "FileField"
    case VideoField => "VideoField"
    case EmbeddedVideoField => "EmbeddedVideoField"
  }

  /** The subclass lookup of ContentBlockField.__init__: the type whose name
      is the stored string, if there is one. */
  function FromName(s: string): (r: Option<FieldType>)
    ensures r.Some? ==> Name(r.value) == s
    ensures r.None? ==> forall t: FieldType :: Name(t) != s
  {
    if s == "TextField" then Some(TextField)
    else if s == "ContentField" then Some(ContentField)
    else if s == "ImageField" then Some(ImageField)
    else if s == "NestedField" then Some(NestedField)
    else if s == "CheckboxField" then Some(CheckboxField)
    else if s == "ChoiceField" then Some(ChoiceField)
    else if s == "ModelChoiceField" then Some(ModelChoiceField)
    else if s == "FileField" then Some(FileField)
    else if s == "VideoField" then Some(VideoField)
    else if s == "EmbeddedVideoField" then Some(EmbeddedVideoField)
    else None
  }

  /** Every type is found again from its stored name, so the names are
      pairwise distinct. */
  lemma FromNameOfName(t: FieldType)
    ensures FromName(Name(t)) == Some(t)
  {
  }

  /** A Python value as it reaches a field: from a form's cleaned data or
      from a database column. */
  datatype Value =
    | NoneV
    | BoolV(b: bool)
    | StrV(s: string)
    | FileV(name: string)          // an uploaded or stored file
    | ObjV(contentType: nat, id: nat)   // a model instance

  /** The storage columns of a field row. */
  datatype Slot =
    | TextSlot | ContentSlot | CheckboxSlot | ImageSlot | FileSlot
    | ChoiceSlot | VideoSlot | EmbeddedVideoSlot

  /** One row of ContentBlockField: the type tag, the owning block, the
      template field it was made from, and one slot per kind of value. */
  datatype Field = Field(
    templateField: nat,
    contentBlock: nat,
    fieldType: FieldType,
    text: Value,
    content: Value,
    checkbox: Value,
    image: Value,
    file: Value,
    choice: Value,
    video: Value,
    embeddedVideo: Value,
    modelChoiceContentType: Option<nat>,
    modelChoiceObjectId: Option<nat>)

  /** A row as ContentBlockField.objects.create leaves it: every slot at the
      column default. */
  function NewField(templateField: nat, contentBlock: nat, fieldType: FieldType,
                    modelChoiceContentType: Option<nat>): (f: Field)
    ensures f.templateField == templateField && f.contentBlock == contentBlock
    ensures f.fieldType == fieldType && f.modelChoiceContentType == modelChoiceContentType
    ensures f.modelChoiceObjectId == None
  {
    Field(templateField, contentBlock, fieldType,
          StrV(""), StrV(""), BoolV(false), FileV(""), FileV(""), StrV(""), FileV(""), StrV(""),
          modelChoiceContentType, None)
  }

  function Get(f: Field, s: Slot): Value {
    match s
    case TextSlot => f.text
    case ContentSlot => f.content
    case CheckboxSlot => f.checkbox
    case ImageSlot => f.image
    case FileSlot => f.file
    case ChoiceSlot => f.choice
    case VideoSlot => f.video
    case EmbeddedVideoSlot => f.embeddedVideo
  }

  function Put(f: Field, s: Slot, v: Value): (g: Field)
    ensures Get(g, s) == v
    ensures forall o: Slot :: o != s ==> Get(g, o) == Get(f, o)
    ensures g.fieldType == f.fieldType && g.templateField == f.templateField
    ensures g.contentBlock == f.contentBlock
    ensures g.modelChoiceContentType == f.modelChoiceContentType
    ensures g.modelChoiceObjectId == f.modelChoiceObjectId
  {
    match s
    case TextSlot => f.(text := v)
    case ContentSlot => f.(content := v)
    case CheckboxSlot => f.(checkbox := v)
    case ImageSlot => f.(image := v)
    case FileSlot => f.(file := v)
    case ChoiceSlot => f.(choice := v)
    case VideoSlot => f.(video := v)
    case EmbeddedVideoSlot => f.(embeddedVideo := v)
  }

  /** The slot a type's subclass reads and writes; the model choice and
      nested types have none. */
  function SlotOf(t: FieldType): Option<Slot> {
    match t
    case TextField => Some(TextSlot)
    case ContentField => Some(ContentSlot)
    case CheckboxField => Some(CheckboxSlot)
    case ImageField => Some(ImageSlot)
    case FileField => Some(FileSlot)
    case ChoiceField => Some(ChoiceSlot)
    case VideoField => Some(VideoSlot)
    case EmbeddedVideoField => Some(EmbeddedVideoSlot)
    case ModelChoiceField => None
    case NestedField => None
  }

  /** Types whose files are removed from storage when no longer used. */
  predicate IsMediaType(t: FieldType) {
    t == ImageField || t == FileField || t == VideoField
  }

  /** What a field contributes to its block's template context. */
  datatype ContextValue =
    | Plain(v: Value)
    | NestedBlocks(blocks: seq<nat>)

  /** `context_value` of each subclass. `nested` is the result of
      `self.content_blocks.nested()` (only used for the nested type); the
      CONTENT_BLOCKS_MARK_SAFE wrapping is the identity on the value. A model
      choice gives the reference its two columns name, or None when either is
      empty; the object is not looked up, so a reference to a deleted row
      stays a reference here where the generic foreign key gives None. */
  function ContextValueOf(f: Field, nested: seq<nat>): (c: ContextValue)
    ensures f.fieldType == NestedField <==> c.NestedBlocks?
    ensures f.fieldType == NestedField ==> c.blocks == nested
    ensures SlotOf(f.fieldType).Some? ==> c == Plain(Get(f, SlotOf(f.fieldType).value))
  {
    match f.fieldType
    case NestedField => NestedBlocks(nested)
    case ModelChoiceField =>
      Plain(if f.modelChoiceContentType.Some? && f.modelChoiceObjectId.Some?
            then ObjV(f.modelChoiceContentType.value, f.modelChoiceObjectId.value)
            else NoneV)
    case _ => Plain(Get(f, SlotOf(f.fieldType).value))
  }

  /** The outcome of `save_value`: the row as written and the value returned. */
  datatype Saved = Saved(field: Field, returned: Value, written: bool)

  /** `save_value(value)` of each subclass. Text, content, checkbox, choice
      and embedded video store the value as given; image, file and video store
      None in place of False (the form's "clear" checkbox); a model choice
      stores the object's id, or None for None, and reading `.id` of any other
      value raises AttributeError; the nested type stores nothing and does not
      save. `written` says whether `self.save()` was called. */
  function SaveValue(f: Field, value: Value): Result<Saved> {
    match f.fieldType
    case NestedField => Ok(Saved(f, NoneV, false))
    case ModelChoiceField =>
      if value.NoneV? then Ok(Saved(f.(modelChoiceObjectId := None), value, true))
      else if value.ObjV? then Ok(Saved(f.(modelChoiceObjectId := Some(value.id)), value, true))
      else Err(AttributeError)
    case ImageField => Ok(Saved(Put(f, ImageSlot, if value == BoolV(false) then NoneV else value), value, true))
    case FileField => Ok(Saved(Put(f, FileSlot, if value == BoolV(false) then NoneV else value), value, true))
    case VideoField => Ok(Saved(Put(f, VideoSlot, if value == BoolV(false) then NoneV else value), value, true))
    case _ => Ok(Saved(Put(f, SlotOf(f.fieldType).value, value), value, true))
  }

  /** For every type with a slot: the call succeeds, returns its argument,
      writes the value into that slot (None in place of False for media
      types) and leaves every other column as it was. */
  lemma SaveValueSlotTypes(f: Field, value: Value)
    requires SlotOf(f.fieldType).Some?
    ensures var s := SlotOf(f.fieldType).value;
      && SaveValue(f, value).Ok?
      && SaveValue(f, value).value.returned == value
      && SaveValue(f, value).value.written
      && Get(SaveValue(f, value).value.field, s)
         == (if IsMediaType(f.fieldType) && value == BoolV(false) then NoneV else value)
      && (forall o: Slot :: o != s ==> Get(SaveValue(f, value).value.field, o) == Get(f, o))
      && SaveValue(f, value).value.field.fieldType == f.fieldType
      && SaveValue(f, value).value.field.modelChoiceObjectId == f.modelChoiceObjectId
      && SaveValue(f, value).value.field.modelChoiceContentType == f.modelChoiceContentType
  {
  }

  /** A saved value is read back by `context_value` (for the slot types the
      stored value is the context value). */
  lemma SaveValueThenContext(f: Field, value: Value, nested: seq<nat>)
    requires SlotOf(f.fieldType).Some? && !IsMediaType(f.fieldType)
    ensures ContextValueOf(SaveValue(f, value).value.field, nested) == Plain(value)
  {
  }

  /** `save_value` fails only on a model choice field given a value that
      is neither None nor an object. */
  lemma SaveValueFails(f: Field, value: Value)
    ensures SaveValue(f, value).Err? <==>
      f.fieldType == ModelChoiceField && !value.NoneV? && !value.ObjV?
  {
    if SlotOf(f.fieldType).Some? {
      SaveValueSlotTypes(f, value);
    } else {
      SaveValueModelChoiceAndNested(f, value);
    }
  }

  /** The model choice type stores only the object id and keeps the content
      type column; the nested type changes nothing and returns None. */
  lemma SaveValueModelChoiceAndNested(f: Field, value: Value)
    ensures f.fieldType == ModelChoiceField && value.NoneV? ==>
      SaveValue(f, value) == Ok(Saved(f.(modelChoiceObjectId := None), NoneV, true))
    ensures f.fieldType == ModelChoiceField && value.ObjV? ==>
      && SaveValue(f, value).Ok?
      && SaveValue(f, value).value.field.modelChoiceObjectId == Some(value.id)
      && SaveValue(f, value).value.field.modelChoiceContentType == f.modelChoiceContentType
      && SaveValue(f, value).value.returned == value
    ensures f.fieldType == ModelChoiceField && !value.NoneV? && !value.ObjV? ==>
      SaveValue(f, value) == Err(AttributeError)
    ensures f.fieldType == NestedField ==> SaveValue(f, value) == Ok(Saved(f, NoneV, false))
  {
  }
}
