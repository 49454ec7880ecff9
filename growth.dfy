/** How the creating operations (a clone, a create) change the rows: they
    only add rows with fresh ids, and the blocks they add form new trees
    hanging from new fields. */
module Growth {
  import opened Wrappers
  import opened FieldTypes
  import opened Tables

  /** Every block row of `t` is in `r`, unchanged. */
  ghost predicate KeepsBlocks(t: Tables, r: Tables) {
    forall c :: c in t.blocks ==> c in r.blocks && r.blocks[c] == t.blocks[c]
  }

  /** Every field row of `t` is in `r`, unchanged. */
  ghost predicate KeepsFields(t: Tables, r: Tables) {
    forall x :: x in t.fields ==> x in r.fields && r.fields[x] == t.fields[x]
  }

  /** `r` only adds rows to `t` and is consistent: every row of `t` is
      unchanged, every new row has a fresh id, and the templates, template
      fields and parents are untouched. */
  ghost predicate Grown(t: Tables, r: Tables) {
    && Valid(r)
    && t.nextBlock <= r.nextBlock && t.nextField <= r.nextField
    && KeepsBlocks(t, r) && KeepsFields(t, r)
    && (forall c :: c in r.blocks && c !in t.blocks ==> t.nextBlock <= c)
    && (forall x :: x in r.fields && x !in t.fields ==> t.nextField <= x)
    && r.templates == t.templates && r.templateFields == t.templateFields
    && r.parents == t.parents
    && r.nextTemplate == t.nextTemplate && r.nextTemplateField == t.nextTemplateField
    && r.nextParent == t.nextParent
  }

  /** Every block `r` adds to `t` is nested in a field that `t` did not
      have, or in the field `nf`. */
  ghost predicate Detached(t: Tables, r: Tables, nf: Option<nat>) {
    forall c :: c in r.blocks && c !in t.blocks ==>
      && r.blocks[c].parent.Some?
      && (r.blocks[c].parent == nf || r.blocks[c].parent.value !in t.fields)
  }

  /** Every field `r` adds to `t` belongs to a block with id `lo` or later. */
  ghost predicate NewFieldsFrom(t: Tables, r: Tables, lo: nat) {
    forall x :: x in r.fields && x !in t.fields ==> lo <= r.fields[x].contentBlock
  }

  /** The facts one step of a create or clone establishes. */
  ghost predicate Grows(t: Tables, r: Tables, nf: Option<nat>, lo: nat) {
    Grown(t, r) && Detached(t, r, nf) && NewFieldsFrom(t, r, lo)
  }

  /** `r` adds to `t` one new tree: its root `top` is the row `row` with the
      next block id, every other new block is nested in a new field, and
      every new field belongs to a new block. */
  ghost predicate Subtree(t: Tables, r: Tables, top: nat, row: Block) {
    && Grown(t, r) && NewFieldsFrom(t, r, t.nextBlock)
    && top == t.nextBlock && top !in t.blocks && top in r.blocks && r.blocks[top] == row
    && (forall c :: c in r.blocks && c !in t.blocks && c != top ==>
          r.blocks[c].parent.Some? && r.blocks[c].parent.value !in t.fields)
  }

  /** Doing nothing is a step. */
  lemma GrowsRefl(t: Tables, nf: Option<nat>, lo: nat)
    requires Valid(t)
    ensures Grows(t, t, nf, lo)
  {
  }

  lemma GrownTrans(t: Tables, r1: Tables, r2: Tables)
    requires Grown(t, r1) && Grown(r1, r2)
    ensures Grown(t, r2)
  {
  }

  lemma DetachedChain(t: Tables, t1: Tables, r: Tables, n: Option<nat>, m: Option<nat>)
    requires KeepsBlocks(t1, r) && t.fields.Keys <= t1.fields.Keys
    requires Detached(t, t1, n) && Detached(t1, r, m)
    requires m == n || (m.Some? && m.value !in t.fields)
    ensures Detached(t, r, n)
  {
  }

  lemma NewFieldsChain(t: Tables, t1: Tables, r: Tables, lo: nat, lo1: nat)
    requires KeepsFields(t1, r) && lo <= lo1
    requires NewFieldsFrom(t, t1, lo) && NewFieldsFrom(t1, r, lo1)
    ensures NewFieldsFrom(t, r, lo)
  {
  }

  /** Inserting a block row whose template and parent field exist only
      adds that row. */
  lemma InsertBlockGrown(t: Tables, row: Block)
    requires Valid(t) && row.template in t.templates
    requires row.parent.Some? ==> row.parent.value in t.fields
    ensures Grown(t, InsertBlock(t, row))
  {
    InsertBlockValid(t, row);
  }

  /** Inserting a field row whose block and template field exist only adds
      that row, and adds no block. */
  lemma InsertFieldGrown(t: Tables, row: Field)
    requires Valid(t) && row.contentBlock in t.blocks && row.templateField in t.templateFields
    ensures Grows(t, InsertField(t, row), None, row.contentBlock)
  {
    InsertFieldValid(t, row);
  }

  /** A block row, followed by a step that adds its fields and their
      nested trees. */
  lemma BlockStep(t: Tables, t1: Tables, r: Tables, row: Block)
    requires t1 == InsertBlock(t, row) && t.nextBlock !in t.blocks
    requires Grown(t, t1)
    requires Grows(t1, r, None, t.nextBlock)
    ensures Subtree(t, r, t.nextBlock, row)
  {
    GrownTrans(t, t1, r);
  }

  /** A step over a prefix of the fields of `nb`, then one more field. */
  lemma FieldStep(t: Tables, t1: Tables, t2: Tables, nb: nat)
    requires Grows(t, t1, None, nb) && Grows(t1, t2, None, nb)
    ensures Grows(t, t2, None, nb)
  {
    GrownTrans(t, t1, t2);
  }

  /** A step over a prefix of the fields, one more field `nf`, then the
      trees nested in it. */
  lemma NestedStep(t: Tables, t1: Tables, t2: Tables, r: Tables, nb: nat, nf: nat)
    requires nb < t2.nextBlock && nf !in t.fields
    requires Grows(t, t1, None, nb) && Grows(t1, t2, None, nb)
    requires Grows(t2, r, Some(nf), t2.nextBlock)
    ensures Grows(t, r, None, nb)
  {
    GrownTrans(t, t1, t2);
    GrownTrans(t, t2, r);
    DetachedChain(t, t1, t2, None, None);
    DetachedChain(t, t2, r, None, Some(nf));
    NewFieldsChain(t, t1, t2, nb, nb);
    NewFieldsChain(t, t2, r, nb, t2.nextBlock);
  }

  /** A step over a prefix of the trees nested in `nf`, then one more tree
      whose root is nested in `nf`. */
  lemma ChildStep(t: Tables, t1: Tables, r: Tables, rb: nat, row: Block, nf: nat)
    requires Grows(t, t1, Some(nf), t.nextBlock)
    requires Subtree(t1, r, rb, row) && row.parent == Some(nf)
    ensures Grows(t, r, Some(nf), t.nextBlock)
  {
    GrownTrans(t, t1, r);
    assert Detached(t1, r, Some(nf));
    DetachedChain(t, t1, r, Some(nf), Some(nf));
    NewFieldsChain(t, t1, r, t.nextBlock, t1.nextBlock);
  }
}
