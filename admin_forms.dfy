/** The admin form of a template field: the choices validator, the
    cross-field checks of `clean` and `save`, which gives the existing
    blocks of the template a field for a new template field. */
module AdminForms {
  import opened Wrappers
  import opened FieldTypes
  import opened Tables
  import opened Growth
  import opened TemplateSync

  // ---------------------------------------------------------------------
  // validate_choices

  /** A decoded JSON value. */
  datatype Json =
    | JNull
    | JBool(b: bool)
    | JNum(n: int)
    | JStr(s: string)
    | JArr(items: seq<Json>)
    | JObj(entries: seq<(string, Json)>)

  /** The choices are a JSON list whose every element is a list of exactly
      two values. `parsed` is what `json.loads` gave for the text, `None`
      when it raised `JSONDecodeError`. */
  predicate ValidChoices(parsed: Option<Json>) {
    && parsed.Some? && parsed.value.JArr?
    && forall i :: 0 <= i < |parsed.value.items| ==> IsPair(parsed.value.items[i])
  }

  predicate IsPair(j: Json) {
    j.JArr? && |j.items| == 2
  }

  /** `validate_choices`: the loop with an early return on the first
      element that is not a two-element list. */
  method ValidateChoices(parsed: Option<Json>) returns (ok: bool)
    ensures ok == ValidChoices(parsed)
  {
    if parsed.None? || !parsed.value.JArr? {
      return false;
    }
    var choices := parsed.value.items;
    for i := 0 to |choices|
      invariant forall j :: 0 <= j < i ==> IsPair(choices[j])
    {
      if !choices[i].JArr? {
        return false;
      }
      if |choices[i].items| != 2 {
        return false;
      }
    }
    return true;
  }

  /** The empty list is valid choices; a list of pairs is valid, and one
      element that is not a pair, or a value that is not a list, makes it
      invalid. */
  lemma {:induction false} ValidChoicesAppend(items: seq<Json>, j: Json)
    ensures ValidChoices(Some(JArr([])))
    ensures ValidChoices(Some(JArr(items + [j]))) <==> ValidChoices(Some(JArr(items))) && IsPair(j)
  {
    var all := items + [j];
    if ValidChoices(Some(JArr(items))) && IsPair(j) {
      forall i | 0 <= i < |all| ensures IsPair(all[i]) {
        if i < |items| { assert all[i] == items[i]; }
      }
    }
    if ValidChoices(Some(JArr(all))) {
      forall i | 0 <= i < |items| ensures IsPair(items[i]) {
        assert all[i] == items[i];
      }
      assert all[|items|] == j;
    }
  }

  // ---------------------------------------------------------------------
  // ContentBlockTemplateFieldAdminForm.clean

  const RequiredMsg := "This field is required"
  const MinNumMsg := "Min num must be less than or equal to max num."
  const MaxNumMsg := "Max num must be greater than or equal to min num."
  const InvalidChoicesMsg := "Invalid choices"
  const FieldTypeLockedMsg := "Field type cannot be changed after save"

  /** One `add_error(field, message)`. */
  datatype FormError = FormError(field: string, message: string)

  /** The cleaned data the checks read. A value that failed its own field
      validation is missing (`None`, or an empty list of nested templates),
      as `cleaned_data.get` gives it; `choices` is the text, and
      `parsedChoices` what `json.loads` makes of it. */
  datatype CleanedData = CleanedData(
    fieldType: Option<FieldType>,
    nestedTemplates: seq<nat>,
    minNum: Option<nat>,
    maxNum: Option<nat>,
    choices: string,
    parsedChoices: Option<Json>,
    modelChoiceContentType: Option<nat>)

  /** The truth value of a primary key: absent and zero are false. */
  predicate Truthy(pk: Option<nat>) {
    pk.Some? && pk.value != 0
  }

  /** The checks that depend on the field type. On a nested field the
      comparison `min_num > max_num` raises `TypeError` when either value
      is missing. */
  function TypeChecks(d: CleanedData): Result<seq<FormError>> {
    match d.fieldType
    case Some(NestedField) =>
      var required := if |d.nestedTemplates| == 0 then [FormError("nested_templates", RequiredMsg)] else [];
      if d.minNum.None? || d.maxNum.None? then Err(TypeError)
      else if d.minNum.value > d.maxNum.value
      then Ok(required + [FormError("min_num", MinNumMsg), FormError("max_num", MaxNumMsg)])
      else Ok(required)
    case Some(ChoiceField) =>
      if d.choices == "" then Ok([FormError("choices", RequiredMsg)])
      else if !ValidChoices(d.parsedChoices) then Ok([FormError("choices", InvalidChoicesMsg)])
      else Ok([])
    case Some(ModelChoiceField) =>
      if d.modelChoiceContentType.None? then Ok([FormError("model_choice_content_type", RequiredMsg)]) else Ok([])
    case _ => Ok([])
  }

  /** `clean`: the errors it adds, in order, for the instance `pk` and
      whether `field_type` is among the changed fields. */
  function Clean(d: CleanedData, pk: Option<nat>, fieldTypeChanged: bool): (r: Result<seq<FormError>>)
    ensures r.Err? <==> d.fieldType == Some(NestedField) && (d.minNum.None? || d.maxNum.None?)
    ensures r.Ok? ==> (FormError("field_type", FieldTypeLockedMsg) in r.value <==> Truthy(pk) && fieldTypeChanged)
  {
    match TypeChecks(d)
    case Err(e) => Err(e)
    case Ok(es) => Ok(es + if Truthy(pk) && fieldTypeChanged then [FormError("field_type", FieldTypeLockedMsg)] else [])
  }

  /** An error on `field` with `message` among those `clean` adds. */
  predicate HasError(d: CleanedData, pk: Option<nat>, changed: bool, field: string, message: string) {
    Clean(d, pk, changed).Ok? && FormError(field, message) in Clean(d, pk, changed).value
  }

  /** A nested field gets both the min and the max error exactly when
      `min_num > max_num`, and the required error exactly when it has no
      nested templates. */
  lemma CleanNested(d: CleanedData, pk: Option<nat>, changed: bool)
    requires d.fieldType == Some(NestedField) && d.minNum.Some? && d.maxNum.Some?
    ensures HasError(d, pk, changed, "min_num", MinNumMsg) <==> d.minNum.value > d.maxNum.value
    ensures HasError(d, pk, changed, "max_num", MaxNumMsg) <==> d.minNum.value > d.maxNum.value
    ensures HasError(d, pk, changed, "nested_templates", RequiredMsg) <==> |d.nestedTemplates| == 0
    ensures !HasError(d, pk, changed, "choices", RequiredMsg) && !HasError(d, pk, changed, "choices", InvalidChoicesMsg)
  {
  }

  /** A choice field with empty choices is required; with others that do
      not validate it is invalid; never both. */
  lemma CleanChoices(d: CleanedData, pk: Option<nat>, changed: bool)
    requires d.fieldType == Some(ChoiceField)
    ensures HasError(d, pk, changed, "choices", RequiredMsg) <==> d.choices == ""
    ensures HasError(d, pk, changed, "choices", InvalidChoicesMsg) <==> d.choices != "" && !ValidChoices(d.parsedChoices)
    ensures !HasError(d, pk, changed, "min_num", MinNumMsg)
  {
  }

  /** A model choice field without a content type is required. */
  lemma CleanModelChoice(d: CleanedData, pk: Option<nat>, changed: bool)
    requires d.fieldType == Some(ModelChoiceField)
    ensures HasError(d, pk, changed, "model_choice_content_type", RequiredMsg) <==> d.modelChoiceContentType.None?
  {
  }

  /** `clean` accepts exactly the data that passes the checks of its field
      type, when the type is not being changed on a saved template field. */
  lemma CleanAccepts(d: CleanedData, pk: Option<nat>, changed: bool)
    requires !(Truthy(pk) && changed)
    ensures Clean(d, pk, changed) == Ok([]) <==>
      match d.fieldType
      case Some(NestedField) =>
        d.minNum.Some? && d.maxNum.Some? && |d.nestedTemplates| > 0 && d.minNum.value <= d.maxNum.value
      case Some(ChoiceField) => d.choices != "" && ValidChoices(d.parsedChoices)
      case Some(ModelChoiceField) => d.modelChoiceContentType.Some?
      case _ => true
  {
    var c := TypeChecks(d);
    if c.Ok? {
      assert c.value + [] == c.value;
    }
  }

  // ---------------------------------------------------------------------
  // ContentBlockTemplateFieldAdminForm.save

  /** The rows after `save(commit)` of the form's template field `row`,
      whose pk is `pk`, and the pk the instance ends with. The form has
      validated the foreign keys. */
  datatype FieldSave = FieldSave(t: Tables, pk: Option<nat>)

  function AdminSave(t: Tables, pk: Option<nat>, row: TemplateField, commit: bool): (r: FieldSave)
    requires Valid(t) && Resolves(t, row)
    ensures Valid(r.t)
  {
    var created := !Truthy(pk);
    var create := created && |BlocksOfTemplate(t, row.template)| > 0;
    if !(commit || create) then FieldSave(t, pk)
    else
      var id := SaveId(pk, t.nextTemplateField);
      var t1 := PutTemplateField(t, pk, row);
      AddFieldRowsValid(t1, id, BlocksOfTemplate(t1, row.template));
      if create then FieldSave(AddFieldRows(t1, id, BlocksOfTemplate(t1, row.template)), Some(id))
      else FieldSave(t1, Some(id))
  }

  /** `save`: the template field is saved when `commit` is set or when it is
      new and its template has blocks, and then each of those blocks gets a
      field for it, in the loop `add_new_content_block_template_field` also
      runs. */
  method SaveTemplateFieldAdminForm(t: Tables, pk: Option<nat>, row: TemplateField, commit: bool) returns (r: FieldSave)
    requires Valid(t) && Resolves(t, row)
    ensures r == AdminSave(t, pk, row, commit)
  {
    var created := !Truthy(pk);
    var blocks := BlocksOfTemplate(t, row.template);
    var create := created && |blocks| > 0;
    r := FieldSave(t, pk);
    if commit || create {
      var id := SaveId(pk, t.nextTemplateField);
      var t1 := PutTemplateField(t, pk, row);
      r := FieldSave(t1, Some(id));
      if create {
        assert BlocksOfTemplate(t1, row.template) == blocks;
        var t2 := AddNewContentBlockTemplateField(t1, id);
        r := FieldSave(t2, Some(id));
      }
    }
  }

  /** Saving a new template field (with or without `commit`) leaves every
      existing field as it was and gives each block of its template
      exactly one new field, of the template field's type. */
  lemma AdminSaveCreates(t: Tables, pk: Option<nat>, row: TemplateField, commit: bool)
    requires Valid(t) && Resolves(t, row) && !Truthy(pk)
    ensures var r := AdminSave(t, pk, row, commit);
      && KeepsFields(t, r.t)
      && OneFieldPerBlock(t, r.t, SaveId(pk, t.nextTemplateField), BlocksOfTemplate(t, row.template), row.fieldType)
  {
    var id := SaveId(pk, t.nextTemplateField);
    var cbs := BlocksOfTemplate(t, row.template);
    if commit || |cbs| > 0 {
      var t1 := PutTemplateField(t, pk, row);
      assert BlocksOfTemplate(t1, row.template) == cbs;
      AddFieldRowsValid(t1, id, cbs);
      if |cbs| > 0 {
        AddFieldRowsOnePerBlock(t1, id, cbs);
      }
    }
  }

  /** A new template field that `save` writes is stored under its id and
      the instance gets that id. */
  lemma AdminSaveStores(t: Tables, pk: Option<nat>, row: TemplateField, commit: bool)
    requires Valid(t) && Resolves(t, row)
    requires commit || (!Truthy(pk) && |BlocksOfTemplate(t, row.template)| > 0)
    ensures var r := AdminSave(t, pk, row, commit); var id := SaveId(pk, t.nextTemplateField);
      && r.pk == Some(id)
      && r.t.templateFields == t.templateFields[id := row]
      && r.t.templates == t.templates && r.t.blocks == t.blocks
  {
    var t1 := PutTemplateField(t, pk, row);
    AddFieldRowsValid(t1, SaveId(pk, t.nextTemplateField), BlocksOfTemplate(t1, row.template));
    var r := AdminSave(t, pk, row, commit);
    assert r.t == t1.(fields := r.t.fields, nextField := r.t.nextField);
  }

  /** Saving a template field that already has a pk adds no field; without
      `commit` it writes nothing at all. */
  lemma AdminSaveUpdates(t: Tables, pk: Option<nat>, row: TemplateField, commit: bool)
    requires Valid(t) && Resolves(t, row) && Truthy(pk)
    ensures AdminSave(t, pk, row, commit).t.fields == t.fields
    ensures !commit ==> AdminSave(t, pk, row, commit) == FieldSave(t, pk)
  {
  }
}
