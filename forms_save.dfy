/** The saving forms of `content_blocks/forms.py`: adding a new block to a
    parent object or to a nested field, and saving the editor form of one
    block. */
module FormSaves {
  import opened Wrappers
  import opened FieldTypes
  import opened Tables
  import opened Growth
  import opened Models
  import opened Forms

  /** `parent.content_blocks.add(b)`. */
  function AddToParent(t: Tables, p: nat, b: nat): Tables
    requires p in t.parents
  {
    t.(parents := t.parents[p := t.parents[p].(blocks := t.parents[p].blocks + {b})])
  }

  /** Adding an existing block keeps the rows consistent; only the
      parent's relation changes, and it gains exactly `b`. */
  lemma AddToParentValid(t: Tables, p: nat, b: nat)
    requires Valid(t) && p in t.parents && b in t.blocks
    ensures var r := AddToParent(t, p, b);
      && Valid(r) && p in r.parents
      && r.parents[p].blocks == t.parents[p].blocks + {b}
      && (forall q :: q in t.parents && q != p ==> q in r.parents && r.parents[q] == t.parents[q])
      && r.blocks == t.blocks && r.fields == t.fields
  {
  }

  // ---------------------------------------------------------------------
  // NewContentBlockForm.save

  /** `NewContentBlockForm.save`: create a draft block for the chosen
      template with no parent field, then add it to the parent object. */
  function NewTopLevel(t: Tables, p: nat, tpl: nat, position: nat, fuel: nat): Result<Created>
    requires Valid(t) && p in t.parents && tpl in t.templates
  {
    match Create(t, tpl, true, None, position, fuel)
    case Ok(c) =>
      CreateGrows(t, tpl, true, None, position, fuel, c);
      Ok(Created(AddToParent(c.t, p, c.block), c.block))
    case Err(e) => Err(e)
  }

  method SaveNewContentBlockForm(t: Tables, p: nat, tpl: nat, position: nat, fuel: nat)
    returns (r: Result<Created>)
    requires Valid(t) && p in t.parents && tpl in t.templates
    ensures r == NewTopLevel(t, p, tpl, position, fuel)
  {
    var c := CreateContentBlock(t, tpl, true, None, position, fuel);
    if c.Err? {
      return Err(c.error);
    }
    CreateGrows(t, tpl, true, None, position, fuel, c.value);
    return Ok(Created(AddToParent(c.value.t, p, c.value.block), c.value.block));
  }

  /** The new block is a draft with no parent field, it has one field per
      template field of its template, the parent object's blocks are the
      old ones plus the new block, and no other parent object changes. */
  lemma NewTopLevelShape(t: Tables, p: nat, tpl: nat, position: nat, fuel: nat, r: Created)
    requires Valid(t) && p in t.parents && tpl in t.templates
    requires NewTopLevel(t, p, tpl, position, fuel) == Ok(r)
    ensures Valid(r.t) && r.block !in t.blocks && r.block in r.t.blocks
    ensures r.t.blocks[r.block] == NewBlock(tpl, true, None, position)
    ensures r.t.blocks[r.block].draft && r.t.blocks[r.block].parent.None?
    ensures exists ids :: FieldsAt(r.t, r.block, t.templateFields, TemplateFieldsOf(t, tpl), ids)
    ensures p in r.t.parents && r.t.parents[p].blocks == t.parents[p].blocks + {r.block}
    ensures forall q :: q in t.parents && q != p ==> q in r.t.parents && r.t.parents[q] == t.parents[q]
  {
    var c := Create(t, tpl, true, None, position, fuel).value;
    CreateGrows(t, tpl, true, None, position, fuel, c);
    CreateShape(t, tpl, true, None, position, fuel, c);
    AddToParentValid(c.t, p, c.block);
    var ids :| FieldsAt(c.t, c.block, t.templateFields, TemplateFieldsOf(t, tpl), ids);
    assert FieldsAt(r.t, r.block, t.templateFields, TemplateFieldsOf(t, tpl), ids);
  }

  // ---------------------------------------------------------------------
  // NewNestedBlockForm.save

  /** `NewNestedBlockForm.save`: create a published block for the chosen
      template inside the chosen field. Nothing checks that the field is a
      nested one. */
  method SaveNewNestedBlockForm(t: Tables, f: nat, tpl: nat, position: nat, fuel: nat)
    returns (r: Result<Created>)
    ensures r == Create(t, tpl, false, Some(f), position, fuel)
  {
    r := CreateContentBlock(t, tpl, false, Some(f), position, fuel);
  }

  /** The new block is published, sits in field `f`, and is one of the
      blocks of `f` afterwards; no parent object gains it. */
  lemma NewNestedShape(t: Tables, f: nat, tpl: nat, position: nat, fuel: nat, r: Created)
    requires Valid(t) && f in t.fields && tpl in t.templates
    requires Create(t, tpl, false, Some(f), position, fuel) == Ok(r)
    ensures Valid(r.t) && r.block !in t.blocks && r.block in r.t.blocks
    ensures !r.t.blocks[r.block].draft && r.t.blocks[r.block].parent == Some(f)
    ensures r.block in ChildrenOf(r.t, f)
    ensures forall c :: c in ChildrenOf(t, f) ==> c in ChildrenOf(r.t, f)
    ensures r.t.parents == t.parents
  {
    CreateGrows(t, tpl, false, Some(f), position, fuel, r);
  }

  // ---------------------------------------------------------------------
  // ContentBlockForm.save

  /** Whether the editor form writes field `f`: it is the field the
      block's field dict holds under its key, and the cleaned data has that
      key. */
  predicate Written(t: Tables, m: map<string, nat>, cleaned: map<string, Value>, f: nat)
    requires Valid(t)
  {
    f in t.fields && Key(t, f) in m && m[Key(t, f)] == f && Key(t, f) in cleaned
  }

  /** The row of field `f` after the form: `save_value` of its cleaned
      value when it is written, the old row otherwise. */
  function EditedRow(t: Tables, m: map<string, nat>, cleaned: map<string, Value>, f: nat): Field
    requires Valid(t) && f in t.fields
  {
    if Written(t, m, cleaned, f) && SaveValue(t.fields[f], cleaned[Key(t, f)]).Ok?
    then SaveValue(t.fields[f], cleaned[Key(t, f)]).value.field
    else t.fields[f]
  }

  /** `ContentBlockForm.save` of block `b` with the form's cleaned data:
      inside one transaction, `save_value` for every field whose key the
      cleaned data has, then the CSS class and `saved=True` on the block.
      A value a model choice field cannot take raises and rolls everything
      back. */
  function EditSave(t: Tables, b: nat, cleaned: map<string, Value>, css: string): Result<Tables>
    requires Valid(t) && b in t.blocks
  {
    var m := BlockFields(t, b);
    if exists k :: k in m && k in cleaned && SaveValue(t.fields[m[k]], cleaned[k]).Err? then
      Err(AttributeError)
    else
      Ok(t.(fields := map f | f in t.fields :: EditedRow(t, m, cleaned, f),
            blocks := t.blocks[b := t.blocks[b].(cssClass := css, saved := true)]))
  }

  /** `m` is a field dict of `t`: every entry is a field stored under its
      own key. */
  ghost predicate KeyedBy(t: Tables, m: map<string, nat>)
    requires Valid(t)
  {
    forall k :: k in m ==> m[k] in t.fields && Key(t, m[k]) == k
  }

  /** Part way through the editor loop: the keys still `todo` are not yet
      written, every other field holds its edited row. */
  ghost predicate Progress(t: Tables, m: map<string, nat>, cleaned: map<string, Value>,
                           todo: set<string>, fields: map<nat, Field>)
    requires Valid(t)
  {
    && fields.Keys == t.fields.Keys
    && (forall f :: f in t.fields ==>
          fields[f] == if Key(t, f) in todo then t.fields[f] else EditedRow(t, m, cleaned, f))
  }

  /** The keys already visited all saved without failing. */
  ghost predicate Visited(t: Tables, m: map<string, nat>, cleaned: map<string, Value>, todo: set<string>)
    requires Valid(t) && KeyedBy(t, m)
  {
    && todo <= m.Keys
    && forall k :: k in m && k !in todo && k in cleaned ==> SaveValue(t.fields[m[k]], cleaned[k]).Ok?
  }

  lemma BlockFieldsKeyed(t: Tables, b: nat)
    requires Valid(t)
    ensures KeyedBy(t, BlockFields(t, b))
  {
  }

  /** One pass of the editor loop, for key `k`. */
  lemma ProgressStep(t: Tables, m: map<string, nat>, cleaned: map<string, Value>,
                     todo: set<string>, fields: map<nat, Field>, k: string)
    requires Valid(t) && KeyedBy(t, m) && k in todo && k in m
    requires Progress(t, m, cleaned, todo, fields) && Visited(t, m, cleaned, todo)
    ensures m[k] in fields && fields[m[k]] == t.fields[m[k]]
    ensures k !in cleaned ==> Progress(t, m, cleaned, todo - {k}, fields) && Visited(t, m, cleaned, todo - {k})
    ensures k in cleaned && SaveValue(t.fields[m[k]], cleaned[k]).Ok? ==>
      && Progress(t, m, cleaned, todo - {k}, fields[m[k] := SaveValue(t.fields[m[k]], cleaned[k]).value.field])
      && Visited(t, m, cleaned, todo - {k})
  {
    if k in cleaned {
      var s := SaveValue(t.fields[m[k]], cleaned[k]);
      if s.Ok? {
        ProgressSave(t, m, cleaned, todo, fields, k, s.value.field);
      }
    } else {
      ProgressSave(t, m, cleaned, todo, fields, k, t.fields[m[k]]);
    }
  }

  /** Visiting key `k` puts its edited row `row` in place. */
  lemma ProgressSave(t: Tables, m: map<string, nat>, cleaned: map<string, Value>,
                     todo: set<string>, fields: map<nat, Field>, k: string, row: Field)
    requires Valid(t) && KeyedBy(t, m) && k in todo && k in m
    requires Progress(t, m, cleaned, todo, fields)
    requires row == EditedRow(t, m, cleaned, m[k])
    ensures Progress(t, m, cleaned, todo - {k}, fields[m[k] := row])
  {
    forall f | f in t.fields && Key(t, f) == k && f != m[k]
      ensures EditedRow(t, m, cleaned, f) == t.fields[f]
    {
      assert !Written(t, m, cleaned, f);
    }
  }

  /** `ContentBlockForm.save`: the loop over `content_block.fields.items()`
      (visited here in no particular order, which the result does not
      depend on), then the block's own columns. */
  method SaveContentBlockForm(t: Tables, b: nat, cleaned: map<string, Value>, css: string)
    returns (r: Result<Tables>)
    requires Valid(t) && b in t.blocks
    ensures r == EditSave(t, b, cleaned, css)
  {
    var m, _ := Fields(t, b);
    BlockFieldsKeyed(t, b);
    var fields := SaveFields(t, m, cleaned);
    if fields.None? {
      var k :| k in m && k in cleaned && SaveValue(t.fields[m[k]], cleaned[k]).Err?;
      EditSaveErr(t, b, cleaned, css, k);
      return Err(AttributeError);
    }
    EditSaveDone(t, b, cleaned, css, fields.value);
    return Ok(t.(fields := fields.value, blocks := t.blocks[b := t.blocks[b].(cssClass := css, saved := true)]));
  }

  /** The loop of `ContentBlockForm.save` over the field dict `m`: the
      field rows once every key is saved, or None at the first
      `save_value` that raises. */
  method SaveFields(t: Tables, m: map<string, nat>, cleaned: map<string, Value>)
    returns (r: Option<map<nat, Field>>)
    requires Valid(t) && KeyedBy(t, m)
    ensures r.None? ==> exists k :: k in m && k in cleaned && SaveValue(t.fields[m[k]], cleaned[k]).Err?
    ensures r.Some? ==> Visited(t, m, cleaned, {}) && Progress(t, m, cleaned, {}, r.value)
  {
    var todo := m.Keys;
    var fields := t.fields;
    while todo != {}
      invariant Visited(t, m, cleaned, todo)
      invariant Progress(t, m, cleaned, todo, fields)
      decreases |todo|
    {
      var k :| k in todo;
      ProgressStep(t, m, cleaned, todo, fields, k);
      todo := todo - {k};
      var f := m[k];
      if k in cleaned {
        var s := SaveValue(fields[f], cleaned[k]);
        if s.Err? {
          return None;
        }
        fields := fields[f := s.value.field];
      }
    }
    return Some(fields);
  }

  /** A failing `save_value` makes the whole save fail. */
  lemma EditSaveErr(t: Tables, b: nat, cleaned: map<string, Value>, css: string, k: string)
    requires Valid(t) && b in t.blocks
    requires KeyedBy(t, BlockFields(t, b)) && k in BlockFields(t, b) && k in cleaned
    requires SaveValue(t.fields[BlockFields(t, b)[k]], cleaned[k]).Err?
    ensures EditSave(t, b, cleaned, css) == Err(AttributeError)
  {
  }

  /** When the loop has visited every key without failing, the fields are
      the edited rows. */
  lemma EditSaveDone(t: Tables, b: nat, cleaned: map<string, Value>, css: string, fields: map<nat, Field>)
    requires Valid(t) && b in t.blocks
    requires KeyedBy(t, BlockFields(t, b)) && Visited(t, BlockFields(t, b), cleaned, {})
    requires Progress(t, BlockFields(t, b), cleaned, {}, fields)
    ensures EditSave(t, b, cleaned, css) ==
      Ok(t.(fields := fields, blocks := t.blocks[b := t.blocks[b].(cssClass := css, saved := true)]))
  {
    assert fields == map f | f in t.fields :: EditedRow(t, BlockFields(t, b), cleaned, f);
  }

  /** The editor form fails exactly when some written field is a model
      choice whose cleaned value is neither None nor an object. */
  lemma EditSaveFails(t: Tables, b: nat, cleaned: map<string, Value>, css: string)
    requires Valid(t) && b in t.blocks
    ensures var m := BlockFields(t, b);
      EditSave(t, b, cleaned, css).Err? <==>
        exists k :: && k in m && k in cleaned && t.fields[m[k]].fieldType == ModelChoiceField
                    && !cleaned[k].NoneV? && !cleaned[k].ObjV?
  {
    var m := BlockFields(t, b);
    forall k | k in m && k in cleaned
      ensures SaveValue(t.fields[m[k]], cleaned[k]).Err? <==>
        t.fields[m[k]].fieldType == ModelChoiceField && !cleaned[k].NoneV? && !cleaned[k].ObjV?
    {
      SaveValueFails(t.fields[m[k]], cleaned[k]);
    }
  }

  /** An edited row stays on its block and template field. */
  lemma EditedRowKeeps(t: Tables, m: map<string, nat>, cleaned: map<string, Value>, f: nat)
    requires Valid(t) && f in t.fields
    ensures EditedRow(t, m, cleaned, f).contentBlock == t.fields[f].contentBlock
    ensures EditedRow(t, m, cleaned, f).templateField == t.fields[f].templateField
  {
  }

  /** A successful save keeps the rows consistent. */
  lemma EditSaveValid(t: Tables, b: nat, cleaned: map<string, Value>, css: string, r: Tables)
    requires Valid(t) && b in t.blocks
    requires EditSave(t, b, cleaned, css) == Ok(r)
    ensures Valid(r) && r.fields.Keys == t.fields.Keys && r.nextField == t.nextField
    ensures r.templateFields == t.templateFields && b in r.blocks
    ensures forall f :: f in t.fields ==>
      r.fields[f].contentBlock == t.fields[f].contentBlock && r.fields[f].templateField == t.fields[f].templateField
  {
    var m := BlockFields(t, b);
    forall f | f in t.fields
      ensures r.fields[f].contentBlock == t.fields[f].contentBlock
      ensures r.fields[f].templateField == t.fields[f].templateField
    {
      EditedRowKeeps(t, m, cleaned, f);
    }
    ColumnsRewritten(t, r);
  }

  /** After a successful save each written field holds what its
      `save_value` wrote, every other field is unchanged, the block has
      the new CSS class and is marked saved with its other columns
      unchanged, and no other block changes. */
  lemma EditSaveWrites(t: Tables, b: nat, cleaned: map<string, Value>, css: string, r: Tables)
    requires Valid(t) && b in t.blocks
    requires EditSave(t, b, cleaned, css) == Ok(r)
    ensures r.fields.Keys == t.fields.Keys && r.blocks.Keys == t.blocks.Keys
    ensures forall f :: f in t.fields && Written(t, BlockFields(t, b), cleaned, f) ==>
      r.fields[f] == SaveValue(t.fields[f], cleaned[Key(t, f)]).value.field
    ensures forall f :: f in t.fields && !Written(t, BlockFields(t, b), cleaned, f) ==>
      r.fields[f] == t.fields[f]
    ensures r.blocks[b] == t.blocks[b].(cssClass := css, saved := true)
    ensures forall c :: c in t.blocks && c != b ==> r.blocks[c] == t.blocks[c]
  {
    var m := BlockFields(t, b);
    forall f | f in t.fields && Written(t, m, cleaned, f)
      ensures SaveValue(t.fields[f], cleaned[Key(t, f)]).Ok?
    {
      assert m[Key(t, f)] == f;
    }
  }

  /** The field dict only depends on the fields' keys. */
  lemma {:induction false} FieldsMapSameKeys(t: Tables, r: Tables, fs: seq<nat>)
    requires FieldRows(t, fs) && FieldRows(r, fs)
    requires forall f :: f in fs ==> Key(r, f) == Key(t, f)
    ensures FieldsMap(r, fs) == FieldsMap(t, fs)
  {
    if |fs| > 0 {
      var pre := fs[..|fs| - 1];
      assert forall f :: f in pre ==> f in fs;
      FieldsMapSameKeys(t, r, pre);
    }
  }

  /** Fields that stay on their blocks leave every block's field list
      as it was. */
  lemma SameOwners(t: Tables, r: Tables, b: nat)
    requires r.fields.Keys == t.fields.Keys && r.nextField == t.nextField
    requires forall f :: f in t.fields ==> r.fields[f].contentBlock == t.fields[f].contentBlock
    ensures FieldsOf(r, b) == FieldsOf(t, b)
  {
    var sr := set f | f in r.fields && r.fields[f].contentBlock == b;
    var st := set f | f in t.fields && t.fields[f].contentBlock == b;
    assert sr == st;
    assert FieldsOf(r, b) == Enumerate(r.nextField, sr);
    assert FieldsOf(t, b) == Enumerate(t.nextField, st);
  }

  /** After a successful save the block's field dict is the same. */
  lemma EditSaveSameDict(t: Tables, b: nat, cleaned: map<string, Value>, css: string, r: Tables)
    requires Valid(t) && b in t.blocks
    requires EditSave(t, b, cleaned, css) == Ok(r)
    ensures Valid(r) && BlockFields(r, b) == BlockFields(t, b)
  {
    EditSaveValid(t, b, cleaned, css, r);
    SameOwners(t, r, b);
    FieldsMapSameKeys(t, r, FieldsOf(t, b));
  }

  /** What the editor saved is what the block's template context shows:
      a field with a storage slot shows its cleaned value (None for a
      cleared file), and "css_class" shows the new CSS class. */
  lemma EditSaveThenContext(t: Tables, b: nat, cleaned: map<string, Value>, css: string, r: Tables, k: string)
    requires Valid(t) && b in t.blocks
    requires EditSave(t, b, cleaned, css) == Ok(r)
    requires k in BlockFields(t, b) && k in cleaned && k != CssClassKey
    requires SlotOf(t.fields[BlockFields(t, b)[k]].fieldType).Some?
    ensures Valid(r) && b in r.blocks && BlockFields(r, b) == BlockFields(t, b)
    ensures Context(r, b)[k] == Plain(
      if IsMediaType(t.fields[BlockFields(t, b)[k]].fieldType) && cleaned[k] == BoolV(false)
      then NoneV else cleaned[k])
    ensures Context(r, b)[CssClassKey] == Plain(StrV(css))
  {
    EditSaveSameDict(t, b, cleaned, css, r);
    EditSaveWrites(t, b, cleaned, css, r);
    var f := BlockFields(t, b)[k];
    BlockFieldsKeyed(t, b);
    assert Written(t, BlockFields(t, b), cleaned, f);
    SaveValueSlotTypes(t.fields[f], cleaned[k]);
  }
}
