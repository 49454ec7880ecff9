/** ImportExportServices: adding fields for a new template field, the
    import of deserialised template records and the template-field filter
    of the export. */
module TemplateSync {
  import opened Wrappers
  import opened FieldTypes
  import opened Tables
  import opened Growth

  // ---------------------------------------------------------------------
  // add_new_content_block_template_field

  /** The field rows of `ContentBlockField.objects.create(template_field=k,
      content_block=c, field_type=ft)` for each block `c` of `cbs`, in
      order, numbered from `next` on. */
  function NewFieldRows(fields: map<nat, Field>, next: nat, k: nat, cbs: seq<nat>, ft: FieldType): (r: map<nat, Field>)
    ensures forall f :: f in r <==> f in fields || next <= f < next + |cbs|
    ensures forall f :: f in fields && f < next ==> r[f] == fields[f]
    ensures forall i :: 0 <= i < |cbs| ==> r[next + i] == NewField(k, cbs[i], ft, None)
  {
    if |cbs| == 0 then fields
    else NewFieldRows(fields, next, k, cbs[..|cbs| - 1], ft)[next + |cbs| - 1 := NewField(k, cbs[|cbs| - 1], ft, None)]
  }

  /** `for c in cbs: ContentBlockField.objects.create(...)` on `t`. The
      field type is copied from the template field; the model-choice
      content type is not. */
  function AddFieldRows(t: Tables, k: nat, cbs: seq<nat>): Tables
    requires k in t.templateFields
  {
    t.(fields := NewFieldRows(t.fields, t.nextField, k, cbs, t.templateFields[k].fieldType),
       nextField := t.nextField + |cbs|)
  }

  /** The new rows keep the tables consistent and change nothing else. */
  lemma AddFieldRowsValid(t: Tables, k: nat, cbs: seq<nat>)
    requires Valid(t) && k in t.templateFields
    requires forall c :: c in cbs ==> c in t.blocks
    ensures Valid(AddFieldRows(t, k, cbs)) && KeepsFields(t, AddFieldRows(t, k, cbs))
  {
    var r := AddFieldRows(t, k, cbs);
    forall f | f in r.fields && f !in t.fields
      ensures r.fields[f].contentBlock in r.blocks && r.fields[f].templateField in r.templateFields
    {
      assert cbs[f - t.nextField] in cbs;
    }
  }

  /** The new rows of `r` are one field of template field `k` and type
      `ft` per block of `cbs`: every block gets one, no block two, and no
      other block any. */
  ghost predicate OneFieldPerBlock(t: Tables, r: Tables, k: nat, cbs: seq<nat>, ft: FieldType) {
    && (forall f :: f in r.fields && f !in t.fields ==>
          r.fields[f] == NewField(k, r.fields[f].contentBlock, ft, None) && r.fields[f].contentBlock in cbs)
    && (forall c :: c in cbs ==> exists f :: f in r.fields && f !in t.fields && r.fields[f].contentBlock == c)
    && (forall f, g ::
          f in r.fields && f !in t.fields && g in r.fields && g !in t.fields && r.fields[f].contentBlock == r.fields[g].contentBlock
          ==> f == g)
  }

  lemma AddFieldRowsOnePerBlock(t: Tables, k: nat, cbs: seq<nat>)
    requires k in t.templateFields && Increasing(cbs)
    requires forall f :: f in t.fields ==> f < t.nextField
    ensures OneFieldPerBlock(t, AddFieldRows(t, k, cbs), k, cbs, t.templateFields[k].fieldType)
  {
    NewRowsAreFields(t, k, cbs);
    NewRowsCover(t, k, cbs);
    NewRowsUnique(t, k, cbs);
  }

  lemma NewRowsAreFields(t: Tables, k: nat, cbs: seq<nat>)
    requires k in t.templateFields
    requires forall f :: f in t.fields ==> f < t.nextField
    ensures var r := AddFieldRows(t, k, cbs);
      forall f :: f in r.fields && f !in t.fields ==>
        && r.fields[f] == NewField(k, r.fields[f].contentBlock, t.templateFields[k].fieldType, None)
        && r.fields[f].contentBlock in cbs
  {
    var r := AddFieldRows(t, k, cbs);
    forall f | f in r.fields && f !in t.fields
      ensures r.fields[f] == NewField(k, r.fields[f].contentBlock, t.templateFields[k].fieldType, None)
      ensures r.fields[f].contentBlock in cbs
    {
      assert r.fields[f] == NewField(k, cbs[f - t.nextField], t.templateFields[k].fieldType, None);
    }
  }

  lemma NewRowsCover(t: Tables, k: nat, cbs: seq<nat>)
    requires k in t.templateFields
    requires forall f :: f in t.fields ==> f < t.nextField
    ensures var r := AddFieldRows(t, k, cbs);
      forall c :: c in cbs ==> exists f :: f in r.fields && f !in t.fields && r.fields[f].contentBlock == c
  {
    var r := AddFieldRows(t, k, cbs);
    forall c | c in cbs ensures exists f :: f in r.fields && f !in t.fields && r.fields[f].contentBlock == c {
      var i :| 0 <= i < |cbs| && cbs[i] == c;
      assert t.nextField + i !in t.fields;
      assert r.fields[t.nextField + i].contentBlock == c;
    }
  }

  lemma NewRowsUnique(t: Tables, k: nat, cbs: seq<nat>)
    requires k in t.templateFields && Increasing(cbs)
    requires forall f :: f in t.fields ==> f < t.nextField
    ensures var r := AddFieldRows(t, k, cbs);
      forall f, g ::
        f in r.fields && f !in t.fields && g in r.fields && g !in t.fields && r.fields[f].contentBlock == r.fields[g].contentBlock
        ==> f == g
  {
    var r := AddFieldRows(t, k, cbs);
    forall f, g | f in r.fields && f !in t.fields && g in r.fields && g !in t.fields &&
        r.fields[f].contentBlock == r.fields[g].contentBlock
      ensures f == g
    {
      assert cbs[f - t.nextField] == cbs[g - t.nextField];
    }
  }

  lemma NewFieldRowsSnoc(fields: map<nat, Field>, next: nat, k: nat, cbs: seq<nat>, i: nat, ft: FieldType)
    requires i < |cbs|
    ensures NewFieldRows(fields, next, k, cbs[..i + 1], ft)
         == NewFieldRows(fields, next, k, cbs[..i], ft)[next + i := NewField(k, cbs[i], ft, None)]
  {
    assert cbs[..i + 1][..i] == cbs[..i];
  }

  /** `add_new_content_block_template_field(k)`: one field row per block of
      the template field's template. */
  method AddNewContentBlockTemplateField(t: Tables, k: nat) returns (r: Tables)
    requires k in t.templateFields
    ensures r == AddFieldRows(t, k, BlocksOfTemplate(t, t.templateFields[k].template))
  {
    var cbs := BlocksOfTemplate(t, t.templateFields[k].template);
    var ft := t.templateFields[k].fieldType;
    r := t;
    for i := 0 to |cbs|
      invariant r == t.(fields := r.fields, nextField := r.nextField)
      invariant r.fields == NewFieldRows(t.fields, t.nextField, k, cbs[..i], ft)
      invariant r.nextField == t.nextField + i
    {
      NewFieldRowsSnoc(t.fields, t.nextField, k, cbs, i, ft);
      r := InsertField(r, NewField(k, cbs[i], ft, None));
    }
    assert cbs[..|cbs|] == cbs;
  }

  /** A new template field of a template gets a field on each of its
      blocks, one each, with the type copied. */
  lemma AddNewFieldsPerBlock(t: Tables, k: nat)
    requires Valid(t) && k in t.templateFields
    ensures var tf := t.templateFields[k]; var cbs := BlocksOfTemplate(t, tf.template);
      && Valid(AddFieldRows(t, k, cbs)) && KeepsFields(t, AddFieldRows(t, k, cbs))
      && OneFieldPerBlock(t, AddFieldRows(t, k, cbs), k, cbs, tf.fieldType)
  {
    AddFieldRowsValid(t, k, BlocksOfTemplate(t, t.templateFields[k].template));
    AddFieldRowsOnePerBlock(t, k, BlocksOfTemplate(t, t.templateFields[k].template));
  }

  // ---------------------------------------------------------------------
  // import_content_block_templates

  /** A deserialised record: its primary key as the natural key resolved
      it (None when no row has that natural key) and its row. Records of
      any other model are `OtherRecord`. */
  datatype Record =
    | TemplateRecord(pk: Option<nat>, template: Template)
    | TemplateFieldRecord(pk: Option<nat>, field: TemplateField)
    | OtherRecord

  /** The rows so far and the `imported_pks` lists. */
  datatype Imported = Imported(t: Tables, templatePks: seq<nat>, fieldPks: seq<nat>)

  /** The id `obj.save()` writes: the record's own pk, or the next id. */
  function SaveId(pk: Option<nat>, next: nat): nat {
    if pk.Some? then pk.value else next
  }

  /** `obj.save()` of a template record: an update when the pk exists, an
      insert otherwise. */
  function PutTemplate(t: Tables, pk: Option<nat>, row: Template): (r: Tables)
    requires Valid(t)
    ensures Valid(r) && SaveId(pk, t.nextTemplate) in r.templates
  {
    var id := SaveId(pk, t.nextTemplate);
    t.(templates := t.templates[id := row], nextTemplate := if id < t.nextTemplate then t.nextTemplate else id + 1)
  }

  /** The foreign keys of a template field row exist. */
  predicate Resolves(t: Tables, row: TemplateField) {
    row.template in t.templates && forall n :: n in row.nestedTemplates ==> n in t.templates
  }

  /** `obj.save()` of a template field record. */
  function PutTemplateField(t: Tables, pk: Option<nat>, row: TemplateField): (r: Tables)
    requires Valid(t) && Resolves(t, row)
    ensures Valid(r) && SaveId(pk, t.nextTemplateField) in r.templateFields
  {
    var id := SaveId(pk, t.nextTemplateField);
    t.(templateFields := t.templateFields[id := row],
       nextTemplateField := if id < t.nextTemplateField then t.nextTemplateField else id + 1)
  }

  /** One pass of the record loop. A template field that did not exist
      before gets a field on every block of its template; a row whose
      foreign keys do not exist is rejected by the database. */
  function ImportStep(acc: Imported, rec: Record): (r: Result<Imported>)
    requires Valid(acc.t)
    ensures r.Ok? ==> Valid(r.value.t)
  {
    match rec
    case OtherRecord => Ok(acc)
    case TemplateRecord(pk, row) =>
      Ok(Imported(PutTemplate(acc.t, pk, row), acc.templatePks + [SaveId(pk, acc.t.nextTemplate)], acc.fieldPks))
    case TemplateFieldRecord(pk, row) =>
      if !Resolves(acc.t, row) then Err(IntegrityError)
      else
        var id := SaveId(pk, acc.t.nextTemplateField);
        var t1 := PutTemplateField(acc.t, pk, row);
        AddFieldRowsValid(t1, id, BlocksOfTemplate(t1, row.template));
        var t2 := if pk.None? || pk.value !in acc.t.templateFields
                  then AddFieldRows(t1, id, BlocksOfTemplate(t1, row.template)) else t1;
        Ok(Imported(t2, acc.templatePks, acc.fieldPks + [id]))
  }

  /** The record loop, inside the import's transaction: the first error
      ends it. */
  function ImportLoop(acc: Imported, rs: seq<Record>): (r: Result<Imported>)
    requires Valid(acc.t)
    ensures r.Ok? ==> Valid(r.value.t)
  {
    if |rs| == 0 then Ok(acc)
    else match ImportLoop(acc, rs[..|rs| - 1])
      case Err(e) => Err(e)
      case Ok(a) => ImportStep(a, rs[|rs| - 1])
  }

  lemma {:induction false} ImportLoopErrStays(acc: Imported, rs: seq<Record>, i: nat)
    requires Valid(acc.t) && i <= |rs| && ImportLoop(acc, rs[..i]).Err?
    ensures ImportLoop(acc, rs) == ImportLoop(acc, rs[..i])
    decreases |rs| - i
  {
    if i < |rs| {
      assert rs[..i + 1][..i] == rs[..i];
      ImportLoopErrStays(acc, rs, i + 1);
    } else {
      assert rs[..i] == rs;
    }
  }

  /** `delete_old_content_block_template_fields`: the template fields of
      the imported templates that the import did not name. */
  function OldTemplateFields(acc: Imported): set<nat> {
    set k | k in acc.t.templateFields && acc.t.templateFields[k].template in Ids(acc.templatePks) && k !in Ids(acc.fieldPks)
  }

  /** `import_content_block_templates`: the record loop, then the delete of
      the old template fields (with their fields and the blocks nested in
      those). */
  function ImportTemplates(t: Tables, rs: seq<Record>): (r: Result<Tables>)
    requires Valid(t)
    ensures r.Ok? ==> Valid(r.value)
  {
    match ImportLoop(Imported(t, [], []), rs)
    case Err(e) => Err(e)
    case Ok(acc) =>
      DeletePreservesValid(acc.t, {}, OldTemplateFields(acc));
      Ok(Delete(acc.t, {}, OldTemplateFields(acc)))
  }

  method ImportContentBlockTemplates(t: Tables, rs: seq<Record>) returns (r: Result<Tables>)
    requires Valid(t)
    ensures r == ImportTemplates(t, rs)
  {
    var acc := Imported(t, [], []);
    for i := 0 to |rs|
      invariant Valid(acc.t) && ImportLoop(Imported(t, [], []), rs[..i]) == Ok(acc)
    {
      assert rs[..i + 1][..i] == rs[..i];
      match rs[i]
      case OtherRecord =>
      case TemplateRecord(pk, row) =>
        acc := Imported(PutTemplate(acc.t, pk, row), acc.templatePks + [SaveId(pk, acc.t.nextTemplate)], acc.fieldPks);
      case TemplateFieldRecord(pk, row) =>
        if !Resolves(acc.t, row) {
          ImportLoopErrStays(Imported(t, [], []), rs, i + 1);
          return Err(IntegrityError);
        }
        var id := SaveId(pk, acc.t.nextTemplateField);
        var created := pk.None? || pk.value !in acc.t.templateFields;
        var t1 := PutTemplateField(acc.t, pk, row);
        if created {
          AddFieldRowsValid(t1, id, BlocksOfTemplate(t1, row.template));
          t1 := AddNewContentBlockTemplateField(t1, id);
        }
        acc := Imported(t1, acc.templatePks, acc.fieldPks + [id]);
    }
    assert rs[..|rs|] == rs;
    DeletePreservesValid(acc.t, {}, OldTemplateFields(acc));
    r := Ok(Delete(acc.t, {}, OldTemplateFields(acc)));
  }

  /** A record of another model is skipped; a template is saved under its
      pk (or the next id) and that id is appended to the template list. */
  lemma ImportStepTemplate(a: Imported, rec: Record)
    requires Valid(a.t) && !rec.TemplateFieldRecord?
    ensures rec.OtherRecord? ==> ImportStep(a, rec) == Ok(a)
    ensures rec.TemplateRecord? ==>
      && ImportStep(a, rec).Ok?
      && var r := ImportStep(a, rec).value;
      && var id := SaveId(rec.pk, a.t.nextTemplate);
      && r.templatePks == a.templatePks + [id] && r.fieldPks == a.fieldPks
      && r.t.templates == a.t.templates[id := rec.template]
      && r.t.templateFields == a.t.templateFields && r.t.fields == a.t.fields && r.t.blocks == a.t.blocks
  {
  }

  /** A template field record fails exactly when its foreign keys do not
      resolve. */
  lemma ImportStepFieldFails(a: Imported, rec: Record)
    requires Valid(a.t) && rec.TemplateFieldRecord?
    ensures ImportStep(a, rec).Err? <==> !Resolves(a.t, rec.field)
  {
  }

  /** Otherwise it is saved under its pk (or the next id) and the id is
      appended to the field list. */
  lemma ImportStepFieldSaved(a: Imported, rec: Record)
    requires Valid(a.t) && rec.TemplateFieldRecord? && Resolves(a.t, rec.field)
    ensures var r := ImportStep(a, rec).value;
      && var id := SaveId(rec.pk, a.t.nextTemplateField);
      && r.fieldPks == a.fieldPks + [id] && r.templatePks == a.templatePks
      && r.t.templateFields == a.t.templateFields[id := rec.field]
      && r.t.templates == a.t.templates && r.t.blocks == a.t.blocks
  {
    var id := SaveId(rec.pk, a.t.nextTemplateField);
    var t1 := PutTemplateField(a.t, rec.pk, rec.field);
    AddFieldRowsValid(t1, id, BlocksOfTemplate(t1, rec.field.template));
    var r := ImportStep(a, rec).value;
    assert r.t == t1.(fields := r.t.fields, nextField := r.t.nextField);
  }

  /** Saving a template field keeps every field row; one that already
      existed adds no field, one that is created gets exactly one field on
      each block of its template. */
  lemma ImportStepFieldRows(a: Imported, rec: Record)
    requires Valid(a.t) && rec.TemplateFieldRecord? && Resolves(a.t, rec.field)
    ensures var r := ImportStep(a, rec).value;
      && KeepsFields(a.t, r.t)
      && (rec.pk.Some? && rec.pk.value in a.t.templateFields ==> r.t.fields == a.t.fields)
      && (rec.pk.None? || rec.pk.value !in a.t.templateFields ==>
            OneFieldPerBlock(a.t, r.t, SaveId(rec.pk, a.t.nextTemplateField),
                             BlocksOfTemplate(a.t, rec.field.template), rec.field.fieldType))
  {
    var id := SaveId(rec.pk, a.t.nextTemplateField);
    var t1 := PutTemplateField(a.t, rec.pk, rec.field);
    assert BlocksOfTemplate(t1, rec.field.template) == BlocksOfTemplate(a.t, rec.field.template);
    AddFieldRowsValid(t1, id, BlocksOfTemplate(t1, rec.field.template));
    if rec.pk.None? || rec.pk.value !in a.t.templateFields {
      AddFieldRowsOnePerBlock(t1, id, BlocksOfTemplate(t1, rec.field.template));
    }
  }

  /** The import skips every record that is neither a template nor a
      template field: it does what it does on the list without them. */
  function Known(rs: seq<Record>): (r: seq<Record>)
    ensures forall x :: x in r ==> !x.OtherRecord?
  {
    if |rs| == 0 then []
    else if rs[|rs| - 1].OtherRecord? then Known(rs[..|rs| - 1])
    else Known(rs[..|rs| - 1]) + [rs[|rs| - 1]]
  }

  lemma {:induction false} ImportSkipsOthers(acc: Imported, rs: seq<Record>)
    requires Valid(acc.t)
    ensures ImportLoop(acc, rs) == ImportLoop(acc, Known(rs))
  {
    if |rs| > 0 {
      var pre := rs[..|rs| - 1];
      ImportSkipsOthers(acc, pre);
      if !rs[|rs| - 1].OtherRecord? {
        assert (Known(pre) + [rs[|rs| - 1]])[..|Known(pre)|] == Known(pre);
      }
    }
  }

  /** What the record loop leaves untouched and what it guarantees about
      the template fields it names. */
  ghost predicate LoopFrame(acc: Imported, r: Imported) {
    && Ids(acc.fieldPks) <= Ids(r.fieldPks) && Ids(acc.templatePks) <= Ids(r.templatePks)
    && (forall k :: k in acc.t.templateFields && k !in Ids(r.fieldPks) ==>
          k in r.t.templateFields && r.t.templateFields[k] == acc.t.templateFields[k])
    && (forall k :: k in Ids(r.fieldPks) ==> k in r.t.templateFields)
    && (forall k :: k in r.t.templateFields ==> k in acc.t.templateFields || k in Ids(r.fieldPks))
  }

  lemma LoopFrameStep(acc: Imported, a: Imported, rec: Record)
    requires Valid(a.t) && LoopFrame(acc, a) && ImportStep(a, rec).Ok?
    ensures LoopFrame(acc, ImportStep(a, rec).value)
  {
    if rec.TemplateFieldRecord? {
      LoopFrameField(acc, a, rec);
    } else if rec.TemplateRecord? {
      LoopFrameTemplate(acc, a, rec);
    }
  }

  lemma LoopFrameField(acc: Imported, a: Imported, rec: Record)
    requires Valid(a.t) && LoopFrame(acc, a) && rec.TemplateFieldRecord? && ImportStep(a, rec).Ok?
    ensures LoopFrame(acc, ImportStep(a, rec).value)
  {
    var r := ImportStep(a, rec).value;
    ImportStepFieldFails(a, rec);
    ImportStepFieldSaved(a, rec);
    assert Ids(r.fieldPks) == Ids(a.fieldPks) + {SaveId(rec.pk, a.t.nextTemplateField)};
  }

  lemma LoopFrameTemplate(acc: Imported, a: Imported, rec: Record)
    requires Valid(a.t) && LoopFrame(acc, a) && rec.TemplateRecord? && ImportStep(a, rec).Ok?
    ensures LoopFrame(acc, ImportStep(a, rec).value)
  {
    var r := ImportStep(a, rec).value;
    ImportStepTemplate(a, rec);
    assert Ids(r.templatePks) == Ids(a.templatePks) + {SaveId(rec.pk, a.t.nextTemplate)};
  }

  lemma {:induction false} ImportLoopFrame(acc: Imported, rs: seq<Record>)
    requires Valid(acc.t) && ImportLoop(acc, rs).Ok?
    requires forall k :: k in Ids(acc.fieldPks) ==> k in acc.t.templateFields
    ensures LoopFrame(acc, ImportLoop(acc, rs).value)
  {
    if |rs| > 0 {
      var pre := rs[..|rs| - 1];
      ImportLoopFrame(acc, pre);
      LoopFrameStep(acc, ImportLoop(acc, pre).value, rs[|rs| - 1]);
    }
  }

  /** After an import that succeeds, every imported template has exactly
      the imported template fields, each as imported, and the template
      fields of templates not imported (and not named by a record) are as
      they were. */
  lemma ImportTemplatesExact(t: Tables, rs: seq<Record>)
    requires Valid(t) && ImportLoop(Imported(t, [], []), rs).Ok?
    ensures var acc := ImportLoop(Imported(t, [], []), rs).value;
      && ImportTemplates(t, rs).Ok?
      && var r := ImportTemplates(t, rs).value;
      && (forall k :: k in r.templateFields && r.templateFields[k].template in Ids(acc.templatePks) ==>
            k in Ids(acc.fieldPks))
      && (forall k :: k in Ids(acc.fieldPks) ==> k in r.templateFields && r.templateFields[k] == acc.t.templateFields[k])
      && (forall k :: k in t.templateFields && k !in Ids(acc.fieldPks) && t.templateFields[k].template !in Ids(acc.templatePks) ==>
            k in r.templateFields && r.templateFields[k] == t.templateFields[k])
  {
    ImportLoopFrame(Imported(t, [], []), rs);
  }

  // ---------------------------------------------------------------------
  // export_content_block_templates

  /** What the export serialises: the templates, then their template
      fields. */
  datatype Exported = Exported(templates: seq<nat>, fields: seq<nat>)

  /** `queryset or ContentBlockTemplate.objects.all()`, then the template
      fields whose template is among them. An empty selection is falsy and
      exports every template. */
  function ExportTemplates(t: Tables, qs: seq<nat>): (r: Exported)
    requires Valid(t)
    requires forall q :: q in qs ==> q in t.templates
    ensures |qs| > 0 ==> r.templates == qs
    ensures |qs| == 0 ==> forall x :: x in r.templates <==> x in t.templates
    ensures forall k :: k in r.fields <==> k in t.templateFields && t.templateFields[k].template in r.templates
    ensures Increasing(r.fields)
  {
    var tpls := if |qs| > 0 then qs else Enumerate(t.nextTemplate, t.templates.Keys);
    Exported(tpls, Enumerate(t.nextTemplateField, set k | k in t.templateFields && t.templateFields[k].template in tpls))
  }

  /** The records the JSON stream of an export deserialises to when it is
      read back into the same database: every natural key resolves to the
      row it came from. */
  function ExportRecords(t: Tables, ex: Exported): (r: seq<Record>)
    requires forall x :: x in ex.templates ==> x in t.templates
    requires forall k :: k in ex.fields ==> k in t.templateFields
    ensures |r| == |ex.templates| + |ex.fields|
  {
    TemplateRecords(t, ex.templates) + FieldRecords(t, ex.fields)
  }

  function TemplateRecords(t: Tables, xs: seq<nat>): (r: seq<Record>)
    requires forall x :: x in xs ==> x in t.templates
    ensures |r| == |xs|
    ensures forall i :: 0 <= i < |xs| ==> r[i] == TemplateRecord(Some(xs[i]), t.templates[xs[i]])
  {
    if |xs| == 0 then [] else TemplateRecords(t, xs[..|xs| - 1]) + [TemplateRecord(Some(xs[|xs| - 1]), t.templates[xs[|xs| - 1]])]
  }

  function FieldRecords(t: Tables, ks: seq<nat>): (r: seq<Record>)
    requires forall k :: k in ks ==> k in t.templateFields
    ensures |r| == |ks|
    ensures forall i :: 0 <= i < |ks| ==> r[i] == TemplateFieldRecord(Some(ks[i]), t.templateFields[ks[i]])
  {
    if |ks| == 0 then [] else FieldRecords(t, ks[..|ks| - 1]) + [TemplateFieldRecord(Some(ks[|ks| - 1]), t.templateFields[ks[|ks| - 1]])]
  }

  /** A record that saves back a row `t` already holds. */
  predicate Replays(t: Tables, rec: Record) {
    match rec
    case TemplateRecord(pk, row) => pk.Some? && pk.value in t.templates && row == t.templates[pk.value]
    case TemplateFieldRecord(pk, row) => pk.Some? && pk.value in t.templateFields && row == t.templateFields[pk.value]
    case OtherRecord => true
  }

  /** The pks a list of records names, per model. */
  function TemplatePksOf(rs: seq<Record>): seq<nat> {
    if |rs| == 0 then []
    else match rs[|rs| - 1]
      case TemplateRecord(Some(x), _) => TemplatePksOf(rs[..|rs| - 1]) + [x]
      case _ => TemplatePksOf(rs[..|rs| - 1])
  }

  function FieldPksOf(rs: seq<Record>): seq<nat> {
    if |rs| == 0 then []
    else match rs[|rs| - 1]
      case TemplateFieldRecord(Some(k), _) => FieldPksOf(rs[..|rs| - 1]) + [k]
      case _ => FieldPksOf(rs[..|rs| - 1])
  }

  /** Importing records that only save back existing rows changes no row
      and records exactly their pks. */
  lemma {:induction false} ImportReplay(t: Tables, a: seq<nat>, b: seq<nat>, rs: seq<Record>)
    requires Valid(t)
    requires forall i :: 0 <= i < |rs| ==> Replays(t, rs[i])
    ensures ImportLoop(Imported(t, a, b), rs) == Ok(Imported(t, a + TemplatePksOf(rs), b + FieldPksOf(rs)))
  {
    if |rs| == 0 {
      assert a + [] == a && b + [] == b;
    } else {
      var pre := rs[..|rs| - 1];
      ImportReplay(t, a, b, pre);
      var P, F := TemplatePksOf(pre), FieldPksOf(pre);
      match rs[|rs| - 1]
      case OtherRecord =>
      case TemplateRecord(pk, row) =>
        assert t.templates[pk.value := row] == t.templates;
        assert PutTemplate(t, pk, row) == t;
        assert (a + P) + [pk.value] == a + (P + [pk.value]);
      case TemplateFieldRecord(pk, row) =>
        assert t.templateFields[pk.value := row] == t.templateFields;
        assert PutTemplateField(t, pk, row) == t;
        assert (b + F) + [pk.value] == b + (F + [pk.value]);
    }
  }

  lemma PksOfSnoc(rs: seq<Record>, rec: Record)
    ensures rec.TemplateRecord? && rec.pk.Some? ==> TemplatePksOf(rs + [rec]) == TemplatePksOf(rs) + [rec.pk.value]
    ensures !(rec.TemplateRecord? && rec.pk.Some?) ==> TemplatePksOf(rs + [rec]) == TemplatePksOf(rs)
    ensures rec.TemplateFieldRecord? && rec.pk.Some? ==> FieldPksOf(rs + [rec]) == FieldPksOf(rs) + [rec.pk.value]
    ensures !(rec.TemplateFieldRecord? && rec.pk.Some?) ==> FieldPksOf(rs + [rec]) == FieldPksOf(rs)
  {
    assert (rs + [rec])[..|rs|] == rs;
  }

  lemma {:induction false} PksOfTemplateRecords(t: Tables, xs: seq<nat>)
    requires forall x :: x in xs ==> x in t.templates
    ensures TemplatePksOf(TemplateRecords(t, xs)) == xs && FieldPksOf(TemplateRecords(t, xs)) == []
  {
    if |xs| > 0 {
      var pre := xs[..|xs| - 1];
      PksOfTemplateRecords(t, pre);
      PksOfSnoc(TemplateRecords(t, pre), TemplateRecord(Some(xs[|xs| - 1]), t.templates[xs[|xs| - 1]]));
      assert xs == pre + [xs[|xs| - 1]];
    }
  }

  lemma {:induction false} PksOfExportRecords(t: Tables, xs: seq<nat>, ks: seq<nat>)
    requires forall x :: x in xs ==> x in t.templates
    requires forall k :: k in ks ==> k in t.templateFields
    ensures TemplatePksOf(TemplateRecords(t, xs) + FieldRecords(t, ks)) == xs
    ensures FieldPksOf(TemplateRecords(t, xs) + FieldRecords(t, ks)) == ks
  {
    if |ks| == 0 {
      PksOfTemplateRecords(t, xs);
      assert TemplateRecords(t, xs) + FieldRecords(t, ks) == TemplateRecords(t, xs);
    } else {
      var pre := ks[..|ks| - 1];
      var rec := TemplateFieldRecord(Some(ks[|ks| - 1]), t.templateFields[ks[|ks| - 1]]);
      PksOfExportRecords(t, xs, pre);
      assert TemplateRecords(t, xs) + FieldRecords(t, ks) == (TemplateRecords(t, xs) + FieldRecords(t, pre)) + [rec];
      PksOfSnoc(TemplateRecords(t, xs) + FieldRecords(t, pre), rec);
      assert ks == pre + [ks[|ks| - 1]];
    }
  }

  lemma RecordsReplay(t: Tables, xs: seq<nat>, ks: seq<nat>)
    requires forall x :: x in xs ==> x in t.templates
    requires forall k :: k in ks ==> k in t.templateFields
    ensures forall i :: 0 <= i < |xs| + |ks| ==> Replays(t, (TemplateRecords(t, xs) + FieldRecords(t, ks))[i])
  {
    var ts, fs := TemplateRecords(t, xs), FieldRecords(t, ks);
    assert forall i :: 0 <= i < |ts| ==> Replays(t, ts[i]);
    assert forall i :: 0 <= i < |fs| ==> Replays(t, fs[i]);
    ReplaysConcat(t, ts, fs);
  }

  lemma ReplaysConcat(t: Tables, ts: seq<Record>, fs: seq<Record>)
    requires forall i :: 0 <= i < |ts| ==> Replays(t, ts[i])
    requires forall i :: 0 <= i < |fs| ==> Replays(t, fs[i])
    ensures forall i :: 0 <= i < |ts| + |fs| ==> Replays(t, (ts + fs)[i])
  {
    forall i | 0 <= i < |ts| + |fs| ensures Replays(t, (ts + fs)[i]) {
      if i >= |ts| { assert (ts + fs)[i] == fs[i - |ts|]; }
    }
  }

  /** When `ks` holds every template field of the templates `xs`, the
      import deletes no template field. */
  lemma NoneLeftOut(t: Tables, xs: seq<nat>, ks: seq<nat>)
    requires forall k :: k in t.templateFields && t.templateFields[k].template in xs ==> k in ks
    ensures OldTemplateFields(Imported(t, xs, ks)) == {}
  {
  }

  /** Reading back records that save every row of the templates `xs` and
      all of their template fields `ks` changes nothing. */
  lemma ImportOwnRecords(t: Tables, xs: seq<nat>, ks: seq<nat>)
    requires Valid(t)
    requires forall x :: x in xs ==> x in t.templates
    requires forall k :: k in ks ==> k in t.templateFields
    requires forall k :: k in t.templateFields && t.templateFields[k].template in xs ==> k in ks
    ensures ImportTemplates(t, TemplateRecords(t, xs) + FieldRecords(t, ks)) == Ok(t)
  {
    var rs := TemplateRecords(t, xs) + FieldRecords(t, ks);
    RecordsReplay(t, xs, ks);
    ImportReplay(t, [], [], rs);
    PksOfExportRecords(t, xs, ks);
    assert [] + xs == xs && [] + ks == ks;
    NoneLeftOut(t, xs, ks);
    DeleteNothing(t);
  }

  /** An export read back into the database it came from changes nothing:
      every row is saved as it is, no template field is new (so no field is
      added) and none is left out (so none is deleted). */
  lemma ExportImportIdentity(t: Tables, qs: seq<nat>)
    requires Valid(t)
    requires forall q :: q in qs ==> q in t.templates
    ensures ImportTemplates(t, ExportRecords(t, ExportTemplates(t, qs))) == Ok(t)
  {
    var ex := ExportTemplates(t, qs);
    ImportOwnRecords(t, ex.templates, ex.fields);
  }

  /** `import_content_block_templates` as written. After the loop and the
      delete, still inside `transaction.atomic()`, an enabled cache makes it
      run the `set_content_blocks_cache` command, whose `set_cache_all()`
      raises `TypeError` at the bare `parent_models()` call; the transaction
      rolls back, so no import succeeds while caching is on. */
  function ImportAsWritten(disableCache: bool, t: Tables, rs: seq<Record>): (r: Result<Tables>)
    requires Valid(t)
    ensures !disableCache ==> r.Err?
    ensures disableCache ==> r == ImportTemplates(t, rs)
  {
    match ImportTemplates(t, rs)
    case Err(e) => Err(e)
    case Ok(t1) => if disableCache then Ok(t1) else Err(TypeError)
  }

  /** The discrepancy on one input: the database's own export, which the
      repaired import takes back unchanged, fails as written whenever
      caching is enabled. */
  lemma ExportImportAsWritten(disableCache: bool, t: Tables, qs: seq<nat>)
    requires Valid(t)
    requires forall q :: q in qs ==> q in t.templates
    ensures ImportAsWritten(disableCache, t, ExportRecords(t, ExportTemplates(t, qs)))
            == if disableCache then Ok(t) else Err(TypeError)
  {
    ExportImportIdentity(t, qs);
  }
}
