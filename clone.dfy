/** CloneServices.clone_content_block: copy a block, each of its fields and,
    recursively, the blocks nested in its nested fields. The queries of the
    clone (`content_block_fields.all()`, `field.content_blocks.all()`) read
    the snapshot `t0` of the rows as they were when the clone began. */
module Clone {
  import opened Wrappers
  import opened FieldTypes
  import opened Tables
  import opened Growth

  /** The `attrs` of `make_clone`: column values that replace the copied
      ones (only `draft` and `parent` are ever passed). */
  datatype Attrs = Attrs(draft: Option<bool>, parent: Option<nat>)

  function ApplyAttrs(b: Block, a: Attrs): Block {
    b.(draft := if a.draft.Some? then a.draft.value else b.draft,
       parent := if a.parent.Some? then a.parent else b.parent)
  }

  /** A clone result: the new rows and the id of the top copy. */
  datatype Cloned = Cloned(t: Tables, block: nat)

  /** The blocks nested in field `f` come after the block owning it. */
  lemma ChildrenAfterOwner(t0: Tables, b: nat, f: nat)
    requires Valid(t0) && f in t0.fields && t0.fields[f].contentBlock == b
    ensures forall c :: c in ChildrenOf(t0, f) ==> c in t0.blocks && b < c
  {
  }

  /** The copy of block `b` (with `a` applied), made in `t`. */
  function CloneBlock(t0: Tables, t: Tables, b: nat, a: Attrs): Cloned
    requires Valid(t0) && b in t0.blocks
    decreases t0.nextBlock - b, 2, 0
  {
    var t1 := InsertBlock(t, ApplyAttrs(t0.blocks[b], a));
    Cloned(CloneFields(t0, t1, b, t.nextBlock, FieldsOf(t0, b)), t.nextBlock)
  }

  /** The copies of the fields `fs` of `b`, attached to the new block `nb`,
      each nested one followed by copies of its nested blocks. */
  function CloneFields(t0: Tables, t: Tables, b: nat, nb: nat, fs: seq<nat>): Tables
    requires Valid(t0) && b in t0.blocks
    requires forall f :: f in fs ==> f in t0.fields && t0.fields[f].contentBlock == b
    decreases t0.nextBlock - b, 1, |fs|
  {
    if |fs| == 0 then t
    else CloneFieldLast(t0, CloneFields(t0, t, b, nb, fs[..|fs| - 1]), b, nb, fs[|fs| - 1])
  }

  /** The copy of field `f` of `b` onto `nb`, followed, when it is a nested
      field, by copies of the blocks nested in it. */
  function CloneFieldLast(t0: Tables, t1: Tables, b: nat, nb: nat, f: nat): Tables
    requires Valid(t0) && b in t0.blocks && f in t0.fields && t0.fields[f].contentBlock == b
    decreases t0.nextBlock - b, 1, 0
  {
    var t2 := InsertField(t1, t0.fields[f].(contentBlock := nb));
    if IsNestedField(t0, f) then
      ChildrenAfterOwner(t0, b, f);
      CloneChildren(t0, t2, b, t1.nextField, ChildrenOf(t0, f))
    else t2
  }

  /** The copies of the blocks `cs` nested under a field of `b`, each
      re-parented to the new field `nf`. */
  function CloneChildren(t0: Tables, t: Tables, b: nat, nf: nat, cs: seq<nat>): Tables
    requires Valid(t0)
    requires forall c :: c in cs ==> c in t0.blocks && b < c
    decreases t0.nextBlock - b, 0, |cs|
  {
    if |cs| == 0 then t
    else
      var pre := cs[..|cs| - 1];
      assert forall c :: c in pre ==> c in cs;
      CloneBlock(t0, CloneChildren(t0, t, b, nf, pre), cs[|cs| - 1], Attrs(None, Some(nf))).t
  }

  /** The recursive body of `clone_content_block`: copy the block, then loop
      over its fields, and for a nested field loop over its blocks. */
  method CloneInto(t0: Tables, t: Tables, b: nat, a: Attrs) returns (r: Tables, nb: nat)
    requires Valid(t0) && b in t0.blocks
    ensures Cloned(r, nb) == CloneBlock(t0, t, b, a)
    decreases t0.nextBlock - b
  {
    nb := t.nextBlock;
    r := InsertBlock(t, ApplyAttrs(t0.blocks[b], a));
    ghost var t1 := r;
    var fs := FieldsOf(t0, b);
    for i := 0 to |fs|
      invariant r == CloneFields(t0, t1, b, nb, fs[..i])
    {
      assert fs[..i + 1][..i] == fs[..i];
      var f := fs[i];
      var nf := r.nextField;
      r := InsertField(r, t0.fields[f].(contentBlock := nb));
      if IsNestedField(t0, f) {
        var cs := ChildrenOf(t0, f);
        ChildrenAfterOwner(t0, b, f);
        ghost var t2 := r;
        for j := 0 to |cs|
          invariant forall c :: c in cs ==> c in t0.blocks && b < c
          invariant r == CloneChildren(t0, t2, b, nf, cs[..j])
        {
          assert cs[..j + 1][..j] == cs[..j];
          assert cs[j] in cs;
          var copy;
          r, copy := CloneInto(t0, r, cs[j], Attrs(None, Some(nf)));
        }
        assert cs[..|cs|] == cs;
      }
    }
    assert fs[..|fs|] == fs;
  }

  /** `clone_content_block(b, attrs)`: the rows after the clone and the id
      of the new block, read from the rows as they were before it. */
  method CloneContentBlock(t: Tables, b: nat, a: Attrs) returns (r: Tables, nb: nat)
    requires Valid(t) && b in t.blocks
    ensures Cloned(r, nb) == CloneBlock(t, t, b, a)
  {
    r, nb := CloneInto(t, t, b, a);
  }

  // ---------------------------------------------------------------------
  // What a clone does to the rows

  /** `t` can receive copies of rows of the snapshot `t0`: both are
      consistent (stated beside it), the snapshot's fields still exist, and the templates and
      template fields are those of the snapshot. */
  ghost predicate Over(t0: Tables, t: Tables) {
    && t0.fields.Keys <= t.fields.Keys
    && t.templates == t0.templates && t.templateFields == t0.templateFields
  }

  /** Every row `r` adds to `t` is a copy of a row of the snapshot `t0`:
      a block differs from its original at most in `parent` and `draft`, a
      field at most in the block it belongs to. */
  ghost predicate Copies(t0: Tables, t: Tables, r: Tables) {
    && (forall c :: c in r.blocks && c !in t.blocks ==>
          exists o :: o in t0.blocks &&
            r.blocks[c] == t0.blocks[o].(parent := r.blocks[c].parent, draft := r.blocks[c].draft))
    && (forall x :: x in r.fields && x !in t.fields ==>
          exists o :: o in t0.fields &&
            r.fields[x] == t0.fields[o].(contentBlock := r.fields[x].contentBlock))
  }

  lemma CopiesTrans(t0: Tables, t: Tables, r1: Tables, r2: Tables)
    requires Grown(t, r1) && Grown(r1, r2)
    requires Copies(t0, t, r1) && Copies(t0, r1, r2)
    ensures Copies(t0, t, r2)
  {
  }

  lemma GrownOver(t0: Tables, t: Tables, r: Tables)
    requires Over(t0, t) && Grown(t, r)
    ensures Over(t0, r) && Valid(r)
  {
  }

  /** The row inserted for block `b` is a copy of it. */
  lemma InsertBlockCopies(t0: Tables, t: Tables, b: nat, a: Attrs)
    requires b in t0.blocks
    ensures Copies(t0, t, InsertBlock(t, ApplyAttrs(t0.blocks[b], a)))
  {
    var row := ApplyAttrs(t0.blocks[b], a);
    var r := InsertBlock(t, row);
    assert r.blocks[t.nextBlock] == t0.blocks[b].(parent := row.parent, draft := row.draft);
  }

  /** The row inserted for field `f` is a copy of it, on block `nb`, and no
      block is added. */
  lemma InsertFieldCopies(t0: Tables, t: Tables, f: nat, nb: nat)
    requires f in t0.fields
    ensures Copies(t0, t, InsertField(t, t0.fields[f].(contentBlock := nb)))
  {
    var r := InsertField(t, t0.fields[f].(contentBlock := nb));
    assert r.fields[t.nextField] == t0.fields[f].(contentBlock := r.fields[t.nextField].contentBlock);
  }

  /** The facts a clone step establishes between `t` and `r`. */
  ghost predicate Clones(t0: Tables, t: Tables, r: Tables, nf: Option<nat>, lo: nat) {
    Grows(t, r, nf, lo) && Copies(t0, t, r)
  }

  /** Inserting the copy of field `f` onto block `nb`. */
  lemma CloneFieldStep(t0: Tables, t1: Tables, f: nat, nb: nat)
    requires Valid(t1) && Over(t0, t1) && f in t0.fields && nb in t1.blocks
    requires t0.fields[f].templateField in t0.templateFields
    ensures var t2 := InsertField(t1, t0.fields[f].(contentBlock := nb));
      Clones(t0, t1, t2, None, nb) && Over(t0, t2) && Valid(t2)
  {
    InsertFieldGrown(t1, t0.fields[f].(contentBlock := nb));
    InsertFieldCopies(t0, t1, f, nb);
  }

  lemma FieldCombine(t0: Tables, t: Tables, t1: Tables, t2: Tables, nb: nat)
    requires Clones(t0, t, t1, None, nb) && Clones(t0, t1, t2, None, nb)
    ensures Clones(t0, t, t2, None, nb)
  {
    FieldStep(t, t1, t2, nb);
    CopiesTrans(t0, t, t1, t2);
  }

  lemma NestedCombine(t0: Tables, t: Tables, t1: Tables, t2: Tables, r: Tables, nb: nat, nf: nat)
    requires nb < t2.nextBlock && nf !in t.fields
    requires Clones(t0, t, t1, None, nb) && Clones(t0, t1, t2, None, nb)
    requires Clones(t0, t2, r, Some(nf), t2.nextBlock)
    ensures Clones(t0, t, r, None, nb)
  {
    NestedStep(t, t1, t2, r, nb, nf);
    CopiesTrans(t0, t, t1, t2);
    CopiesTrans(t0, t, t2, r);
  }

  lemma ChildCombine(t0: Tables, t: Tables, t1: Tables, r: Tables, rb: nat, row: Block, nf: nat)
    requires Clones(t0, t, t1, Some(nf), t.nextBlock)
    requires Subtree(t1, r, rb, row) && row.parent == Some(nf) && Copies(t0, t1, r)
    ensures Clones(t0, t, r, Some(nf), t.nextBlock)
  {
    ChildStep(t, t1, r, rb, row, nf);
    CopiesTrans(t0, t, t1, r);
  }

  /** Cloning block `b` of the snapshot into `t`: the rows only grow, and
      only by copies of snapshot rows; the new block is `b` with the
      attributes applied, and every other new block is nested in a new
      field. */
  lemma {:induction false} CloneBlockGrows(t0: Tables, t: Tables, b: nat, a: Attrs)
    requires Valid(t0) && Valid(t) && Over(t0, t) && b in t0.blocks
    requires a.parent.Some? ==> a.parent.value in t.fields
    ensures var r := CloneBlock(t0, t, b, a);
      Subtree(t, r.t, r.block, ApplyAttrs(t0.blocks[b], a)) && Copies(t0, t, r.t)
    decreases t0.nextBlock - b, 2, 0, 0
  {
    var row := ApplyAttrs(t0.blocks[b], a);
    var t1 := InsertBlock(t, row);
    InsertBlockGrown(t, row);
    InsertBlockCopies(t0, t, b, a);
    GrownOver(t0, t, t1);
    CloneFieldsGrows(t0, t1, b, t.nextBlock, FieldsOf(t0, b));
    var r := CloneFields(t0, t1, b, t.nextBlock, FieldsOf(t0, b));
    BlockStep(t, t1, r, row);
    CopiesTrans(t0, t, t1, r);
  }

  /** Cloning the fields `fs` of `b` onto the new block `nb`. */
  lemma {:induction false} CloneFieldsGrows(t0: Tables, t: Tables, b: nat, nb: nat, fs: seq<nat>)
    requires Valid(t0) && Valid(t) && Over(t0, t) && b in t0.blocks && nb in t.blocks
    requires forall f :: f in fs ==> f in t0.fields && t0.fields[f].contentBlock == b
    ensures Clones(t0, t, CloneFields(t0, t, b, nb, fs), None, nb)
    decreases t0.nextBlock - b, 1, |fs|, 1
  {
    if |fs| > 0 {
      CloneFieldsPrefixGrows(t0, t, b, nb, fs);
      CloneFieldLastGrows(t0, t, CloneFields(t0, t, b, nb, fs[..|fs| - 1]), b, nb, fs[|fs| - 1]);
    }
  }

  /** The induction hypothesis for the fields before the last one. */
  lemma {:induction false} CloneFieldsPrefixGrows(t0: Tables, t: Tables, b: nat, nb: nat, fs: seq<nat>)
    requires Valid(t0) && Valid(t) && Over(t0, t) && b in t0.blocks && nb in t.blocks
    requires forall f :: f in fs ==> f in t0.fields && t0.fields[f].contentBlock == b
    requires |fs| > 0
    ensures var t1 := CloneFields(t0, t, b, nb, fs[..|fs| - 1]);
      Clones(t0, t, t1, None, nb) && Valid(t1) && Over(t0, t1)
    decreases t0.nextBlock - b, 1, |fs|, 0
  {
    var pre := fs[..|fs| - 1];
    assert forall f :: f in pre ==> f in fs;
    CloneFieldsGrows(t0, t, b, nb, pre);
    GrownOver(t0, t, CloneFields(t0, t, b, nb, pre));
  }

  /** Copying one more field (and what is nested in it) after a prefix. */
  lemma {:induction false} CloneFieldLastGrows(t0: Tables, t: Tables, t1: Tables, b: nat, nb: nat, f: nat)
    requires Valid(t0) && Valid(t1) && Over(t0, t1) && b in t0.blocks && nb in t.blocks
    requires f in t0.fields && t0.fields[f].contentBlock == b
    requires Clones(t0, t, t1, None, nb)
    ensures Clones(t0, t, CloneFieldLast(t0, t1, b, nb, f), None, nb)
    decreases t0.nextBlock - b, 1, 0, 0
  {
    var t2 := InsertField(t1, t0.fields[f].(contentBlock := nb));
    CloneFieldStep(t0, t1, f, nb);
    if IsNestedField(t0, f) {
      ChildrenAfterOwner(t0, b, f);
      CloneChildrenGrows(t0, t2, b, t1.nextField, ChildrenOf(t0, f));
      NestedCombine(t0, t, t1, t2, CloneChildren(t0, t2, b, t1.nextField, ChildrenOf(t0, f)), nb, t1.nextField);
    } else {
      FieldCombine(t0, t, t1, t2, nb);
    }
  }

  /** Cloning the blocks `cs` of the snapshot under the field `nf`. */
  lemma {:induction false} CloneChildrenGrows(t0: Tables, t: Tables, b: nat, nf: nat, cs: seq<nat>)
    requires Valid(t0) && Valid(t) && Over(t0, t) && nf in t.fields
    requires forall c :: c in cs ==> c in t0.blocks && b < c
    ensures Clones(t0, t, CloneChildren(t0, t, b, nf, cs), Some(nf), t.nextBlock)
    decreases t0.nextBlock - b, 0, |cs|, 0
  {
    if |cs| > 0 {
      var pre := cs[..|cs| - 1];
      assert forall c :: c in pre ==> c in cs;
      CloneChildrenGrows(t0, t, b, nf, pre);
      var t1 := CloneChildren(t0, t, b, nf, pre);
      GrownOver(t0, t, t1);
      var c := cs[|cs| - 1];
      assert c in cs;
      CloneBlockGrows(t0, t1, c, Attrs(None, Some(nf)));
      var r := CloneBlock(t0, t1, c, Attrs(None, Some(nf)));
      ChildCombine(t0, t, t1, r.t, r.block, ApplyAttrs(t0.blocks[c], Attrs(None, Some(nf))), nf);
    }
  }

  // ---------------------------------------------------------------------
  // The fields of a copy

  /** Every field in `fs` has a copy on block `nb` in `r`. */
  ghost predicate EachCopied(t0: Tables, r: Tables, fs: seq<nat>, nb: nat)
    requires forall f :: f in fs ==> f in t0.fields
  {
    forall f :: f in fs ==> exists x :: x in r.fields && r.fields[x] == t0.fields[f].(contentBlock := nb)
  }

  /** Every field `r` adds to `t` on block `nb` is a copy of one in `fs`. */
  ghost predicate OnlyCopies(t0: Tables, t: Tables, r: Tables, fs: seq<nat>, nb: nat)
    requires forall f :: f in fs ==> f in t0.fields
  {
    forall x :: x in r.fields && x !in t.fields && r.fields[x].contentBlock == nb ==>
      exists f :: f in fs && r.fields[x] == t0.fields[f].(contentBlock := nb)
  }

  /** Adding the copy of the last field `f` of `fs`, then rows that keep the
      fields, extends the first correspondence from the prefix `pre` to
      `fs`. */
  lemma EachCopiedStep(t0: Tables, t1: Tables, r: Tables, fs: seq<nat>, pre: seq<nat>, f: nat, nb: nat)
    requires forall g :: g in fs ==> g in t0.fields
    requires |fs| > 0 && pre == fs[..|fs| - 1] && f == fs[|fs| - 1]
    requires t1.nextField !in t1.fields
    requires EachCopied(t0, t1, pre, nb)
    requires KeepsFields(InsertField(t1, t0.fields[f].(contentBlock := nb)), r)
    ensures EachCopied(t0, r, fs, nb)
  {
    var t2 := InsertField(t1, t0.fields[f].(contentBlock := nb));
    assert forall g :: g in fs ==> g in pre || g == f by {
      assert fs == pre + [f];
    }
    forall g | g in fs
      ensures exists x :: x in r.fields && r.fields[x] == t0.fields[g].(contentBlock := nb)
    {
      if g == f {
        assert t1.nextField in t2.fields;
        assert r.fields[t1.nextField] == t0.fields[f].(contentBlock := nb);
      } else {
        assert g in pre;
        var x :| x in t1.fields && t1.fields[x] == t0.fields[g].(contentBlock := nb);
        assert x in t2.fields && t2.fields[x] == t1.fields[x];
      }
    }
  }

  /** Adding the copy of the last field `f` of `fs`, then rows that keep the
      fields and put no new field on `nb`, extends the second
      correspondence. */
  lemma OnlyCopiesStep(t0: Tables, t: Tables, t1: Tables, r: Tables, fs: seq<nat>, pre: seq<nat>, f: nat, nb: nat)
    requires forall g :: g in fs ==> g in t0.fields
    requires |fs| > 0 && pre == fs[..|fs| - 1] && f == fs[|fs| - 1]
    requires t1.nextField !in t1.fields
    requires OnlyCopies(t0, t, t1, pre, nb)
    requires var t2 := InsertField(t1, t0.fields[f].(contentBlock := nb));
      KeepsFields(t2, r) && NewFieldsFrom(t2, r, nb + 1)
    ensures OnlyCopies(t0, t, r, fs, nb)
  {
    var t2 := InsertField(t1, t0.fields[f].(contentBlock := nb));
    forall x | x in r.fields && x !in t.fields && r.fields[x].contentBlock == nb
      ensures exists g :: g in fs && r.fields[x] == t0.fields[g].(contentBlock := nb)
    {
      assert x in t2.fields;
      if x in t1.fields {
        var g :| g in pre && t1.fields[x] == t0.fields[g].(contentBlock := nb);
        assert g in fs;
      } else {
        assert f in fs;
      }
    }
  }

  /** The blocks cloned under a nested field keep every field row and put
      no new field on an existing block. */
  lemma NestedKeepsFields(t0: Tables, t2: Tables, b: nat, f: nat, nf: nat)
    requires Valid(t0) && Valid(t2) && Over(t0, t2) && nf in t2.fields
    requires forall c :: c in ChildrenOf(t0, f) ==> c in t0.blocks && b < c
    ensures var r := CloneChildren(t0, t2, b, nf, ChildrenOf(t0, f));
      KeepsFields(t2, r) && NewFieldsFrom(t2, r, t2.nextBlock)
  {
    CloneChildrenGrows(t0, t2, b, nf, ChildrenOf(t0, f));
  }

  /** The fields the clone puts on `nb` are exactly copies of `fs`. */
  lemma {:induction false} CloneFieldsMatch(t0: Tables, t: Tables, b: nat, nb: nat, fs: seq<nat>)
    requires Valid(t0) && Valid(t) && Over(t0, t) && b in t0.blocks && nb in t.blocks
    requires forall f :: f in fs ==> f in t0.fields && t0.fields[f].contentBlock == b
    ensures EachCopied(t0, CloneFields(t0, t, b, nb, fs), fs, nb)
    ensures OnlyCopies(t0, t, CloneFields(t0, t, b, nb, fs), fs, nb)
  {
    if |fs| > 0 {
      var pre := fs[..|fs| - 1];
      assert forall f :: f in pre ==> f in fs;
      CloneFieldsMatch(t0, t, b, nb, pre);
      CloneFieldsPrefixGrows(t0, t, b, nb, fs);
      CloneFieldLastMatch(t0, t, CloneFields(t0, t, b, nb, pre), b, nb, fs);
    }
  }

  /** The correspondence extends over one more field. */
  lemma CloneFieldLastMatch(t0: Tables, t: Tables, t1: Tables, b: nat, nb: nat, fs: seq<nat>)
    requires Valid(t0) && Valid(t1) && Over(t0, t1) && b in t0.blocks && nb in t1.blocks
    requires forall f :: f in fs ==> f in t0.fields && t0.fields[f].contentBlock == b
    requires |fs| > 0
    requires EachCopied(t0, t1, fs[..|fs| - 1], nb) && OnlyCopies(t0, t, t1, fs[..|fs| - 1], nb)
    ensures EachCopied(t0, CloneFieldLast(t0, t1, b, nb, fs[|fs| - 1]), fs, nb)
    ensures OnlyCopies(t0, t, CloneFieldLast(t0, t1, b, nb, fs[|fs| - 1]), fs, nb)
  {
    var pre := fs[..|fs| - 1];
    var f := fs[|fs| - 1];
    var r := CloneFieldLast(t0, t1, b, nb, f);
    assert t1.nextField !in t1.fields;
    CloneFieldLastKeeps(t0, t1, b, nb, f);
    EachCopiedStep(t0, t1, r, fs, pre, f, nb);
    OnlyCopiesStep(t0, t, t1, r, fs, pre, f, nb);
  }

  /** Cloning the children of a copied field adds no field to `nb` and keeps the copy. */
  lemma CloneFieldLastKeeps(t0: Tables, t1: Tables, b: nat, nb: nat, f: nat)
    requires Valid(t0) && Valid(t1) && Over(t0, t1) && b in t0.blocks && nb in t1.blocks
    requires f in t0.fields && t0.fields[f].contentBlock == b
    ensures var t2 := InsertField(t1, t0.fields[f].(contentBlock := nb));
      var r := CloneFieldLast(t0, t1, b, nb, f);
      KeepsFields(t2, r) && NewFieldsFrom(t2, r, nb + 1)
  {
    var t2 := InsertField(t1, t0.fields[f].(contentBlock := nb));
    if IsNestedField(t0, f) {
      CloneFieldStep(t0, t1, f, nb);
      ChildrenAfterOwner(t0, b, f);
      NestedKeepsFields(t0, t2, b, f, t1.nextField);
    }
  }

  /** `clone_content_block(b, attrs)`: the rows stay consistent and only
      grow, by copies of existing rows; the new block is `b` with `attrs`
      applied; and every other new block is nested in a new field, so the
      copy shares no nested field with the original. */
  lemma CloneContentBlockGrows(t: Tables, b: nat, a: Attrs)
    requires Valid(t) && b in t.blocks
    requires a.parent.Some? ==> a.parent.value in t.fields
    ensures var r := CloneBlock(t, t, b, a);
      && Valid(r.t) && Grown(t, r.t) && Copies(t, t, r.t)
      && r.block !in t.blocks && r.block in r.t.blocks
      && r.t.blocks[r.block] == ApplyAttrs(t.blocks[b], a)
      && (forall c :: c in r.t.blocks && c !in t.blocks && c != r.block ==>
            r.t.blocks[c].parent.Some? && r.t.blocks[c].parent.value !in t.fields)
  {
    CloneBlockGrows(t, t, b, a);
  }

  /** `clone_content_block(b, attrs)`: the fields of the new block are
      exactly copies of the fields of `b`, each moved to the new block. */
  lemma CloneContentBlockFields(t: Tables, b: nat, a: Attrs)
    requires Valid(t) && b in t.blocks
    requires a.parent.Some? ==> a.parent.value in t.fields
    ensures FieldsCopied(t, CloneBlock(t, t, b, a).t, FieldsOf(t, b), CloneBlock(t, t, b, a).block)
  {
    var row := ApplyAttrs(t.blocks[b], a);
    var t1 := InsertBlock(t, row);
    InsertBlockGrown(t, row);
    GrownOver(t, t, t1);
    CloneFieldsMatch(t, t1, b, t.nextBlock, FieldsOf(t, b));
    CloneFieldsGrows(t, t1, b, t.nextBlock, FieldsOf(t, b));
    assert forall x :: x in t1.fields ==> t1.fields[x].contentBlock != t.nextBlock;
    var fs := FieldsOf(t, b);
    var r := CloneFields(t, t1, b, t.nextBlock, fs);
    OnlyCopiesOnFresh(t, t1, r, fs, t.nextBlock);
    assert CloneBlock(t, t, b, a) == Cloned(r, t.nextBlock);
  }

  /** When `t` has no field on `nb`, every field on `nb` is a new one. */
  lemma OnlyCopiesOnFresh(t0: Tables, t: Tables, r: Tables, fs: seq<nat>, nb: nat)
    requires forall f :: f in fs ==> f in t0.fields
    requires KeepsFields(t, r) && OnlyCopies(t0, t, r, fs, nb)
    requires forall x :: x in t.fields ==> t.fields[x].contentBlock != nb
    ensures OnBlockOnlyCopies(t0, r, fs, nb)
  {
  }

  /** Every field on block `nb` in `r` is a copy of one in `fs`. */
  ghost predicate OnBlockOnlyCopies(t0: Tables, r: Tables, fs: seq<nat>, nb: nat)
    requires forall f :: f in fs ==> f in t0.fields
  {
    forall x :: x in r.fields && r.fields[x].contentBlock == nb ==>
      exists f :: f in fs && r.fields[x] == t0.fields[f].(contentBlock := nb)
  }

  /** The fields on block `nb` in `r` are exactly copies of those in `fs`:
      each one of `fs` has a copy, and nothing else is there. */
  ghost predicate FieldsCopied(t0: Tables, r: Tables, fs: seq<nat>, nb: nat)
    requires forall f :: f in fs ==> f in t0.fields
  {
    EachCopied(t0, r, fs, nb) && OnBlockOnlyCopies(t0, r, fs, nb)
  }
}
