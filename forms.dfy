/** `create_content_block` of `content_blocks/forms.py`: a new block with
    one field per field of its template and, for every nested field, its
    minimum number of nested blocks, each created the same way. */
module Forms {
  import opened Wrappers
  import opened FieldTypes
  import opened Tables
  import opened Growth

  /** The result of a create: the rows afterwards and the new block's id. */
  datatype Created = Created(t: Tables, block: nat)

  /** The row `ContentBlock.objects.create` writes: shown (the model
      default), not yet saved, no CSS class. */
  function NewBlock(tpl: nat, draft: bool, parent: Option<nat>, position: nat): Block {
    Block(tpl, parent, position, true, draft, false, "")
  }

  /** The field row created for template field `k` on block `nb`: its type
      and content type are copied from the template field. */
  function FieldFor(k: nat, tf: TemplateField, nb: nat): Field {
    NewField(k, nb, tf.fieldType, tf.modelChoiceContentType)
  }

  // ---------------------------------------------------------------------
  // NewContentBlockFormBase.create_content_block

  /** `create_content_block(tpl, draft, parent=…, position=…)`, inside its
      transaction: any error leaves no row behind, which is why an error
      result carries no tables. `fuel` bounds the recursion depth: a
      template that nests itself with a positive `min_num` recurses until
      Python's recursion limit, a RecursionError. The template fields are
      the rows the loop's queryset loaded when it started. */
  function Create(t: Tables, tpl: nat, draft: bool, parent: Option<nat>, position: nat,
                  fuel: nat): Result<Created>
    decreases fuel, 2, 0
  {
    if fuel == 0 then Err(RecursionError)
    else
      var t1 := InsertBlock(t, NewBlock(tpl, draft, parent, position));
      match CreateFields(t1, t.nextBlock, t.templateFields, TemplateFieldsOf(t, tpl), fuel)
      case Ok(r) => Ok(Created(r, t.nextBlock))
      case Err(e) => Err(e)
  }

  /** The loop over the template fields `ks` (rows of `tfs`): one field row
      per template field and, for a nested one, its `min_num` nested
      blocks. */
  function CreateFields(t: Tables, nb: nat, tfs: map<nat, TemplateField>, ks: seq<nat>,
                        fuel: nat): Result<Tables>
    requires fuel >= 1
    requires forall k :: k in ks ==> k in tfs
    decreases fuel, 1, |ks|
  {
    if |ks| == 0 then Ok(t)
    else
      match CreateFields(t, nb, tfs, ks[..|ks| - 1], fuel)
      case Err(e) => Err(e)
      case Ok(t1) => CreateFieldLast(t1, nb, tfs[ks[|ks| - 1]], ks[|ks| - 1], fuel)
  }

  /** One pass of that loop: the field row for template field `k` (the row
      `tf`) and, when it is nested, its nested blocks. */
  function CreateFieldLast(t: Tables, nb: nat, tf: TemplateField, k: nat, fuel: nat): Result<Tables>
    requires fuel >= 1
    decreases fuel, 1, 0
  {
    var t1 := InsertField(t, FieldFor(k, tf, nb));
    if tf.fieldType == NestedField then CreateChildren(t1, tf, t.nextField, tf.minNum, fuel)
    else Ok(t1)
  }

  /** The inner loop: nested blocks at positions 0 .. `count` - 1 under the
      new field `nf`. */
  function CreateChildren(t: Tables, tf: TemplateField, nf: nat, count: nat, fuel: nat): Result<Tables>
    requires fuel >= 1
    decreases fuel, 0, count
  {
    if count == 0 then Ok(t)
    else
      match CreateChildren(t, tf, nf, count - 1, fuel)
      case Err(e) => Err(e)
      case Ok(t1) => CreateChild(t1, tf, nf, count - 1, fuel)
  }

  /** One pass of the inner loop: the nested block at position `j`, of the
      template field's first nested template (when there is none, `first()`
      is None and the insert fails its NOT NULL constraint). */
  function CreateChild(t: Tables, tf: TemplateField, nf: nat, j: nat, fuel: nat): Result<Tables>
    requires fuel >= 1
    decreases fuel, 0, 0
  {
    if |tf.nestedTemplates| == 0 then Err(IntegrityError)
    else
      match Create(t, tf.nestedTemplates[0], false, Some(nf), j, fuel - 1)
      case Ok(c) => Ok(c.t)
      case Err(e) => Err(e)
  }

  /** Once the loop over template fields has failed it stays failed. */
  lemma {:induction false} CreateFieldsErrStays(t: Tables, nb: nat, tfs: map<nat, TemplateField>,
                                                ks: seq<nat>, i: nat, fuel: nat)
    requires fuel >= 1 && i <= |ks|
    requires forall k :: k in ks ==> k in tfs
    requires CreateFields(t, nb, tfs, ks[..i], fuel).Err?
    ensures CreateFields(t, nb, tfs, ks, fuel) == CreateFields(t, nb, tfs, ks[..i], fuel)
    decreases |ks| - i
  {
    if i < |ks| {
      assert ks[..i + 1][..i] == ks[..i];
      CreateFieldsErrStays(t, nb, tfs, ks, i + 1, fuel);
    } else {
      assert ks[..i] == ks;
    }
  }

  /** Once the loop over nested blocks has failed it stays failed. */
  lemma {:induction false} CreateChildrenErrStays(t: Tables, tf: TemplateField, nf: nat, j: nat,
                                                  count: nat, fuel: nat)
    requires fuel >= 1 && j <= count
    requires CreateChildren(t, tf, nf, j, fuel).Err?
    ensures CreateChildren(t, tf, nf, count, fuel) == CreateChildren(t, tf, nf, j, fuel)
    decreases count - j
  {
    if j < count {
      CreateChildrenErrStays(t, tf, nf, j + 1, count, fuel);
    }
  }

  /** `create_content_block`: insert the block, loop over the template's
      fields inserting one field each, and for a nested one create its
      `min_num` nested blocks. */
  method CreateContentBlock(t: Tables, tpl: nat, draft: bool, parent: Option<nat>, position: nat,
                            fuel: nat) returns (r: Result<Created>)
    ensures r == Create(t, tpl, draft, parent, position, fuel)
    decreases fuel, 1
  {
    if fuel == 0 {
      return Err(RecursionError);
    }
    var nb := t.nextBlock;
    var cur := InsertBlock(t, NewBlock(tpl, draft, parent, position));
    ghost var t1 := cur;
    var ks := TemplateFieldsOf(t, tpl);
    for i := 0 to |ks|
      invariant CreateFields(t1, nb, t.templateFields, ks[..i], fuel) == Ok(cur)
    {
      assert ks[..i + 1][..i] == ks[..i];
      var k := ks[i];
      var tf := t.templateFields[k];
      var nf := cur.nextField;
      cur := InsertField(cur, FieldFor(k, tf, nb));
      if tf.fieldType == NestedField {
        var c := CreateNestedBlocks(cur, tf, nf, fuel);
        if c.Err? {
          CreateFieldsErrStays(t1, nb, t.templateFields, ks, i + 1, fuel);
          return Err(c.error);
        }
        cur := c.value;
      }
    }
    assert ks[..|ks|] == ks;
    return Ok(Created(cur, nb));
  }

  /** The `for j in range(template_field.min_num)` loop. */
  method CreateNestedBlocks(t: Tables, tf: TemplateField, nf: nat, fuel: nat) returns (r: Result<Tables>)
    requires fuel >= 1
    ensures r == CreateChildren(t, tf, nf, tf.minNum, fuel)
    decreases fuel, 0
  {
    var cur := t;
    for j := 0 to tf.minNum
      invariant CreateChildren(t, tf, nf, j, fuel) == Ok(cur)
    {
      if |tf.nestedTemplates| == 0 {
        CreateChildrenErrStays(t, tf, nf, j + 1, tf.minNum, fuel);
        return Err(IntegrityError);
      }
      var c := CreateContentBlock(cur, tf.nestedTemplates[0], false, Some(nf), j, fuel - 1);
      if c.Err? {
        CreateChildrenErrStays(t, tf, nf, j + 1, tf.minNum, fuel);
        return Err(c.error);
      }
      cur := c.value.t;
    }
    return Ok(cur);
  }

  // ---------------------------------------------------------------------
  // What a create adds

  /** `create_content_block` only adds rows: one new tree whose root is the
      new block row, every other new block nested in a new field. */
  lemma {:induction false} CreateGrows(t: Tables, tpl: nat, draft: bool, parent: Option<nat>,
                                       position: nat, fuel: nat, r: Created)
    requires Valid(t) && tpl in t.templates
    requires parent.Some? ==> parent.value in t.fields
    requires Create(t, tpl, draft, parent, position, fuel) == Ok(r)
    ensures Subtree(t, r.t, r.block, NewBlock(tpl, draft, parent, position))
    decreases fuel, 2, 0, 0
  {
    var row := NewBlock(tpl, draft, parent, position);
    var t1 := InsertBlock(t, row);
    InsertBlockValid(t, row);
    InsertBlockGrown(t, row);
    CreateFieldsGrows(t1, t.nextBlock, t.templateFields, TemplateFieldsOf(t, tpl), fuel, r.t);
    BlockStep(t, t1, r.t, row);
  }

  /** The loop over template fields adds fields to `nb` only, and blocks
      only under the fields it adds. */
  lemma {:induction false} CreateFieldsGrows(t: Tables, nb: nat, tfs: map<nat, TemplateField>,
                                             ks: seq<nat>, fuel: nat, r: Tables)
    requires fuel >= 1 && Valid(t) && nb in t.blocks && tfs == t.templateFields
    requires forall k :: k in ks ==> k in tfs
    requires CreateFields(t, nb, tfs, ks, fuel) == Ok(r)
    ensures Grows(t, r, None, nb)
    decreases fuel, 1, |ks|, 1
  {
    if |ks| == 0 {
      GrowsRefl(t, None, nb);
    } else {
      var pre := ks[..|ks| - 1];
      var k := ks[|ks| - 1];
      assert forall k :: k in pre ==> k in ks;
      var t1 := CreateFields(t, nb, tfs, pre, fuel).value;
      CreateFieldsGrows(t, nb, tfs, pre, fuel, t1);
      CreateFieldLastGrows(t, t1, nb, tfs[k], k, fuel, r);
    }
  }

  /** One more template field after a prefix of them. */
  lemma {:induction false} CreateFieldLastGrows(t: Tables, t1: Tables, nb: nat, tf: TemplateField,
                                                k: nat, fuel: nat, r: Tables)
    requires fuel >= 1 && nb in t.blocks && k in t1.templateFields && t1.templateFields[k] == tf
    requires Grows(t, t1, None, nb)
    requires CreateFieldLast(t1, nb, tf, k, fuel) == Ok(r)
    ensures Grows(t, r, None, nb)
    decreases fuel, 1, 0, 0
  {
    var t2 := InsertField(t1, FieldFor(k, tf, nb));
    InsertFieldGrown(t1, FieldFor(k, tf, nb));
    if tf.fieldType == NestedField {
      CreateChildrenGrows(t2, tf, t1.nextField, tf.minNum, fuel, r);
      NestedStep(t, t1, t2, r, nb, t1.nextField);
    } else {
      FieldStep(t, t1, t2, nb);
    }
  }

  /** The nested blocks made for the field `nf` hang from `nf`, and
      whatever they contain hangs from fields made after `nf`. */
  lemma {:induction false} CreateChildrenGrows(t: Tables, tf: TemplateField, nf: nat, count: nat,
                                               fuel: nat, r: Tables)
    requires fuel >= 1 && Valid(t) && nf in t.fields
    requires forall n :: n in tf.nestedTemplates ==> n in t.templates
    requires CreateChildren(t, tf, nf, count, fuel) == Ok(r)
    ensures Grows(t, r, Some(nf), t.nextBlock)
    decreases fuel, 0, count, 0
  {
    if count == 0 {
      GrowsRefl(t, Some(nf), t.nextBlock);
    } else {
      var t1 := CreateChildren(t, tf, nf, count - 1, fuel).value;
      assert CreateChild(t1, tf, nf, count - 1, fuel) == Ok(r);
      CreateChildrenGrows(t, tf, nf, count - 1, fuel, t1);
      CreateChildGrows(t, t1, tf, nf, count - 1, fuel, r);
    }
  }

  /** One more nested block under `nf` after a prefix of them. */
  lemma {:induction false} CreateChildGrows(t: Tables, t1: Tables, tf: TemplateField, nf: nat,
                                            j: nat, fuel: nat, r: Tables)
    requires fuel >= 1 && nf in t.fields
    requires forall n :: n in tf.nestedTemplates ==> n in t.templates
    requires Grows(t, t1, Some(nf), t.nextBlock)
    requires CreateChild(t1, tf, nf, j, fuel) == Ok(r)
    ensures Grows(t, r, Some(nf), t.nextBlock)
    decreases fuel, 0, 0, 0
  {
    var row := NewBlock(tf.nestedTemplates[0], false, Some(nf), j);
    assert tf.nestedTemplates[0] in tf.nestedTemplates;
    var c := Create(t1, tf.nestedTemplates[0], false, Some(nf), j, fuel - 1);
    CreateGrows(t1, tf.nestedTemplates[0], false, Some(nf), j, fuel - 1, c.value);
    ChildStep(t, t1, r, c.value.block, row, nf);
  }

  // ---------------------------------------------------------------------
  // The shape of a created block

  /** `cids` are the nested blocks of field `nf`, in position order: block
      `cids[j]` is a published block at position `j` of the first nested
      template, and no other block is nested in `nf`. */
  ghost predicate ChildrenAt(blocks: map<nat, Block>, nf: nat, tf: TemplateField, cids: seq<nat>) {
    && (forall j :: 0 <= j < |cids| ==>
          && cids[j] in blocks && |tf.nestedTemplates| > 0
          && blocks[cids[j]] == NewBlock(tf.nestedTemplates[0], false, Some(nf), j))
    && (forall c :: c in blocks && blocks[c].parent == Some(nf) ==> c in cids)
  }

  /** Field `nf` holds exactly `min_num` nested blocks, at positions
      0 .. `min_num` - 1. */
  ghost predicate HasMinChildren(blocks: map<nat, Block>, nf: nat, tf: TemplateField) {
    exists cids :: |cids| == tf.minNum && ChildrenAt(blocks, nf, tf, cids)
  }

  /** Field `ids[i]` is the field created for template field `ks[i]` on
      block `nb`, with the template field's type and content type. */
  ghost predicate FieldRowsAt(r: Tables, nb: nat, tfs: map<nat, TemplateField>, ks: seq<nat>, ids: seq<nat>) {
    && |ids| == |ks|
    && (forall i :: 0 <= i < |ids| ==>
          ks[i] in tfs && ids[i] in r.fields && r.fields[ids[i]] == FieldFor(ks[i], tfs[ks[i]], nb))
  }

  /** Block `nb` has no field but those in `ids`. */
  ghost predicate OnlyFieldsAt(r: Tables, nb: nat, ids: seq<nat>) {
    forall x :: x in r.fields && r.fields[x].contentBlock == nb ==> x in ids
  }

  /** Every nested one of the fields `ids` holds its minimum of nested
      blocks. */
  ghost predicate ChildrenOfAll(r: Tables, tfs: map<nat, TemplateField>, ks: seq<nat>, ids: seq<nat>)
    requires |ids| == |ks|
  {
    forall i :: 0 <= i < |ids| && ks[i] in tfs && tfs[ks[i]].fieldType == NestedField ==>
      HasMinChildren(r.blocks, ids[i], tfs[ks[i]])
  }

  /** Block `nb`'s fields are `ids`, one per template field in `ks`, and the
      nested ones hold their minimum of nested blocks. */
  ghost predicate FieldsAt(r: Tables, nb: nat, tfs: map<nat, TemplateField>, ks: seq<nat>, ids: seq<nat>) {
    FieldRowsAt(r, nb, tfs, ks, ids) && OnlyFieldsAt(r, nb, ids) && ChildrenOfAll(r, tfs, ks, ids)
  }

  /** Rows added under a new tree do not touch the nested blocks of an
      existing field `f`. */
  lemma HasMinChildrenKept(t: Tables, r: Tables, f: nat, tf: TemplateField, m: Option<nat>)
    requires KeepsBlocks(t, r) && Detached(t, r, m) && f in t.fields && m != Some(f)
    requires HasMinChildren(t.blocks, f, tf)
    ensures HasMinChildren(r.blocks, f, tf)
  {
    var cids :| |cids| == tf.minNum && ChildrenAt(t.blocks, f, tf, cids);
    assert ChildrenAt(r.blocks, f, tf, cids);
  }

  /** A new nested block at the next position extends the list. */
  lemma ChildrenAtExtend(t: Tables, r: Tables, nf: nat, tf: TemplateField, cids: seq<nat>, top: nat)
    requires |tf.nestedTemplates| > 0 && nf in t.fields
    requires Subtree(t, r, top, NewBlock(tf.nestedTemplates[0], false, Some(nf), |cids|))
    requires ChildrenAt(t.blocks, nf, tf, cids)
    ensures ChildrenAt(r.blocks, nf, tf, cids + [top])
  {
    var cs := cids + [top];
    forall c | c in r.blocks && r.blocks[c].parent == Some(nf)
      ensures c in cs
    {
      if c in t.blocks {
        assert c in cids;
      }
    }
  }

  /** The nested blocks created for a new field `nf` are exactly `count`
      blocks at positions 0 .. `count` - 1. */
  lemma {:induction false} CreateChildrenShape(t: Tables, tf: TemplateField, nf: nat, count: nat,
                                               fuel: nat, r: Tables)
    requires fuel >= 1 && Valid(t) && nf in t.fields
    requires forall n :: n in tf.nestedTemplates ==> n in t.templates
    requires forall c :: c in t.blocks ==> t.blocks[c].parent != Some(nf)
    requires CreateChildren(t, tf, nf, count, fuel) == Ok(r)
    ensures exists cids :: |cids| == count && ChildrenAt(r.blocks, nf, tf, cids)
  {
    if count == 0 {
      assert ChildrenAt(r.blocks, nf, tf, []);
    } else {
      var t1 := CreateChildren(t, tf, nf, count - 1, fuel).value;
      CreateChildrenShape(t, tf, nf, count - 1, fuel, t1);
      var cids :| |cids| == count - 1 && ChildrenAt(t1.blocks, nf, tf, cids);
      CreateChildrenGrows(t, tf, nf, count - 1, fuel, t1);
      CreateChildShape(t1, tf, nf, fuel, r, cids);
    }
  }

  /** The last pass of the inner loop adds the block at position `|cids|`. */
  lemma CreateChildShape(t1: Tables, tf: TemplateField, nf: nat, fuel: nat, r: Tables, cids: seq<nat>)
    requires fuel >= 1 && nf in t1.fields
    requires Valid(t1) && forall n :: n in tf.nestedTemplates ==> n in t1.templates
    requires CreateChild(t1, tf, nf, |cids|, fuel) == Ok(r)
    requires ChildrenAt(t1.blocks, nf, tf, cids)
    ensures exists cs :: |cs| == |cids| + 1 && ChildrenAt(r.blocks, nf, tf, cs)
  {
    assert tf.nestedTemplates[0] in tf.nestedTemplates;
    var c := Create(t1, tf.nestedTemplates[0], false, Some(nf), |cids|, fuel - 1);
    CreateGrows(t1, tf.nestedTemplates[0], false, Some(nf), |cids|, fuel - 1, c.value);
    ChildrenAtExtend(t1, r, nf, tf, cids, c.value.block);
  }

  /** The field rows after one more field `nf` for template field `k`. */
  lemma FieldRowsExtend(t1: Tables, r: Tables, nb: nat, tfs: map<nat, TemplateField>, ks: seq<nat>,
                        ids: seq<nat>, k: nat)
    requires k in tfs && t1.nextField !in t1.fields
    requires FieldRowsAt(t1, nb, tfs, ks, ids)
    requires KeepsFields(InsertField(t1, FieldFor(k, tfs[k], nb)), r)
    ensures FieldRowsAt(r, nb, tfs, ks + [k], ids + [t1.nextField])
  {
  }

  /** No other field of `nb` appears: the fields added under the new field
      belong to newer blocks. */
  lemma OnlyFieldsExtend(t1: Tables, r: Tables, nb: nat, ids: seq<nat>, row: Field)
    requires row.contentBlock == nb && nb < t1.nextBlock
    requires OnlyFieldsAt(t1, nb, ids)
    requires KeepsFields(InsertField(t1, row), r)
    requires NewFieldsFrom(InsertField(t1, row), r, t1.nextBlock)
    ensures OnlyFieldsAt(r, nb, ids + [t1.nextField])
  {
    var t2 := InsertField(t1, row);
    forall x | x in r.fields && r.fields[x].contentBlock == nb
      ensures x in ids + [t1.nextField]
    {
      if x in t2.fields && x != t1.nextField {
        assert x in ids;
      }
    }
  }

  /** The earlier nested fields keep their nested blocks, and the new one
      has its own. */
  lemma ChildrenOfAllExtend(t1: Tables, r: Tables, tfs: map<nat, TemplateField>, ks: seq<nat>,
                            ids: seq<nat>, k: nat, row: Field)
    requires |ids| == |ks| && k in tfs && t1.nextField !in t1.fields
    requires forall i :: 0 <= i < |ids| ==> ids[i] in t1.fields
    requires ChildrenOfAll(t1, tfs, ks, ids)
    requires var t2 := InsertField(t1, row);
      KeepsBlocks(t2, r) && Detached(t2, r, Some(t1.nextField))
    requires tfs[k].fieldType == NestedField ==> HasMinChildren(r.blocks, t1.nextField, tfs[k])
    ensures ChildrenOfAll(r, tfs, ks + [k], ids + [t1.nextField])
  {
    var t2 := InsertField(t1, row);
    var ks2 := ks + [k];
    var ids2 := ids + [t1.nextField];
    forall i | 0 <= i < |ids2| && ks2[i] in tfs && tfs[ks2[i]].fieldType == NestedField
      ensures HasMinChildren(r.blocks, ids2[i], tfs[ks2[i]])
    {
      if i < |ids| {
        assert ids2[i] == ids[i] && ks2[i] == ks[i];
        HasMinChildrenKept(t2, r, ids[i], tfs[ks[i]], Some(t1.nextField));
      }
    }
  }

  /** The fields created on a new block `nb` are one per template field,
      each with its nested blocks. */
  lemma {:induction false} CreateFieldsShape(t: Tables, nb: nat, tfs: map<nat, TemplateField>,
                                             ks: seq<nat>, fuel: nat, r: Tables)
    requires fuel >= 1 && Valid(t) && nb in t.blocks && tfs == t.templateFields
    requires forall k :: k in ks ==> k in tfs
    requires forall x :: x in t.fields ==> t.fields[x].contentBlock != nb
    requires CreateFields(t, nb, tfs, ks, fuel) == Ok(r)
    ensures exists ids :: FieldsAt(r, nb, tfs, ks, ids)
  {
    if |ks| == 0 {
      assert FieldsAt(r, nb, tfs, ks, []);
    } else {
      var pre := ks[..|ks| - 1];
      var k := ks[|ks| - 1];
      assert forall k :: k in pre ==> k in ks;
      assert ks == pre + [k];
      var t1 := CreateFields(t, nb, tfs, pre, fuel).value;
      CreateFieldsShape(t, nb, tfs, pre, fuel, t1);
      var ids :| FieldsAt(t1, nb, tfs, pre, ids);
      CreateFieldsGrows(t, nb, tfs, pre, fuel, t1);
      CreateFieldLastShape(t1, nb, tfs, pre, ids, k, fuel, r);
    }
  }

  /** The last pass of the loop over template fields. */
  lemma CreateFieldLastShape(t1: Tables, nb: nat, tfs: map<nat, TemplateField>, ks: seq<nat>,
                             ids: seq<nat>, k: nat, fuel: nat, r: Tables)
    requires fuel >= 1 && Valid(t1) && nb in t1.blocks && tfs == t1.templateFields && k in tfs
    requires FieldsAt(t1, nb, tfs, ks, ids)
    requires CreateFieldLast(t1, nb, tfs[k], k, fuel) == Ok(r)
    ensures FieldsAt(r, nb, tfs, ks + [k], ids + [t1.nextField])
  {
    var row := FieldFor(k, tfs[k], nb);
    var t2 := InsertField(t1, row);
    var nf := t1.nextField;
    InsertFieldGrown(t1, row);
    if tfs[k].fieldType == NestedField {
      CreateChildrenGrows(t2, tfs[k], nf, tfs[k].minNum, fuel, r);
      CreateChildrenShape(t2, tfs[k], nf, tfs[k].minNum, fuel, r);
    } else {
      GrowsRefl(t2, Some(nf), t2.nextBlock);
    }
    FieldRowsExtend(t1, r, nb, tfs, ks, ids, k);
    OnlyFieldsExtend(t1, r, nb, ids, row);
    ChildrenOfAllExtend(t1, r, tfs, ks, ids, k, row);
  }

  /** A created block has exactly one field per template field of its
      template, in order, each nested field with its `min_num` nested
      blocks. */
  lemma CreateShape(t: Tables, tpl: nat, draft: bool, parent: Option<nat>, position: nat,
                    fuel: nat, r: Created)
    requires Valid(t) && tpl in t.templates
    requires parent.Some? ==> parent.value in t.fields
    requires Create(t, tpl, draft, parent, position, fuel) == Ok(r)
    ensures r.block == t.nextBlock
    ensures exists ids :: FieldsAt(r.t, r.block, t.templateFields, TemplateFieldsOf(t, tpl), ids)
  {
    var row := NewBlock(tpl, draft, parent, position);
    var t1 := InsertBlock(t, row);
    InsertBlockValid(t, row);
    CreateFieldsShape(t1, t.nextBlock, t.templateFields, TemplateFieldsOf(t, tpl), fuel, r.t);
  }
}
