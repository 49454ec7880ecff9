/** The copying forms of `content_blocks/forms.py`: publishing a parent's
    drafts, resetting its drafts to what is published, and importing the
    drafts of another parent of the same model. Each deletes some of the
    parent's blocks and then clones a queryset of blocks into the parent. */
module FormCopies {
  import opened Wrappers
  import opened Tables
  import opened Growth
  import opened Models
  import opened Clone
  import opened FormSaves

  /** The rows after a loop of clones and the ids of the copies, in order. */
  datatype Copied = Copied(t: Tables, ids: seq<nat>)

  /** `r` comes from `t` by clones and additions to parents' relations:
      consistent, every block and field row kept, fresh ids for new
      blocks, the same templates and parent rows. */
  ghost predicate Extends(t: Tables, r: Tables) {
    && Valid(r) && KeepsBlocks(t, r) && KeepsFields(t, r)
    && t.nextBlock <= r.nextBlock
    && (forall c :: c in r.blocks && c !in t.blocks ==> t.nextBlock <= c)
    && r.templates == t.templates && r.templateFields == t.templateFields
    && r.parents.Keys == t.parents.Keys
  }

  /** The loop `for b in qs: parent.content_blocks.add(clone_content_block(b, attrs))`:
      every clone reads the rows as the earlier ones left them. */
  function CloneEach(t: Tables, p: nat, qs: seq<nat>, a: Attrs): (r: Copied)
    requires Valid(t) && p in t.parents && a.parent.None?
    requires forall c :: c in qs ==> c in t.blocks
    ensures Extends(t, r.t)
  {
    if |qs| == 0 then ExtendsRefl(t); Copied(t, [])
    else
      var pre := qs[..|qs| - 1];
      assert forall c :: c in pre ==> c in qs;
      var c0 := CloneEach(t, p, pre, a);
      var b := qs[|qs| - 1];
      CloneContentBlockGrows(c0.t, b, a);
      var c := CloneBlock(c0.t, c0.t, b, a);
      ExtendsStep(t, c0.t, c.t, p, c.block);
      Copied(AddToParent(c.t, p, c.block), c0.ids + [c.block])
  }

  /** One more block cloned onto the end of `CloneEach`. */
  lemma CloneEachSnoc(t: Tables, p: nat, qs: seq<nat>, i: nat, a: Attrs)
    requires Valid(t) && p in t.parents && a.parent.None?
    requires forall c :: c in qs ==> c in t.blocks
    requires i < |qs|
    ensures var r := CloneEach(t, p, qs[..i], a);
      && Valid(r.t) && qs[i] in r.t.blocks
      && var c := CloneBlock(r.t, r.t, qs[i], a);
      && Valid(c.t) && p in c.t.parents && c.block in c.t.blocks
      && var next := CloneEach(t, p, qs[..i + 1], a);
      && next == Copied(AddToParent(c.t, p, c.block), r.ids + [c.block])
      && Valid(next.t) && KeepsBlocks(r.t, next.t) && next.t.templates == r.t.templates
      && c.block in next.t.blocks
  {
    assert qs[..i + 1][..i] == qs[..i];
    var r := CloneEach(t, p, qs[..i], a);
    CloneContentBlockGrows(r.t, qs[i], a);
    var c := CloneBlock(r.t, r.t, qs[i], a);
    AddToParentValid(c.t, p, c.block);
  }

  lemma ExtendsRefl(t: Tables)
    requires Valid(t)
    ensures Extends(t, t)
  {
  }

  /** A clone followed by an addition to a parent extends the rows. */
  lemma ExtendsStep(t: Tables, t1: Tables, t2: Tables, p: nat, b: nat)
    requires Extends(t, t1) && Valid(t2) && Grown(t1, t2)
    requires p in t2.parents && b in t2.blocks
    ensures Extends(t, AddToParent(t2, p, b))
  {
    AddToParentValid(t2, p, b);
  }

  /** One copy per block of `qs`, in order: fresh, increasing, each the
      original row with `attrs` applied. */
  ghost predicate CopyRows(t: Tables, qs: seq<nat>, a: Attrs, blocks: map<nat, Block>, next: nat, ids: seq<nat>)
    requires forall c :: c in qs ==> c in t.blocks
  {
    && |ids| == |qs|
    && (forall i :: 0 <= i < |qs| ==>
          && ids[i] in blocks && ids[i] !in t.blocks && ids[i] < next
          && blocks[ids[i]] == ApplyAttrs(t.blocks[qs[i]], a))
    && Increasing(ids)
  }

  /** Parent `p`'s relation gains exactly `ids`, and no other parent's
      relation changes. */
  ghost predicate ParentGains(t: Tables, r: Tables, p: nat, ids: seq<nat>) {
    && p in t.parents && p in r.parents
    && r.parents[p].blocks == t.parents[p].blocks + Ids(ids)
    && (forall q :: q in t.parents && q != p ==> q in r.parents && r.parents[q] == t.parents[q])
  }

  /** What the loop of clones does. */
  lemma {:induction false} CloneEachCopies(t: Tables, p: nat, qs: seq<nat>, a: Attrs)
    requires Valid(t) && p in t.parents && a.parent.None?
    requires forall c :: c in qs ==> c in t.blocks
    ensures var r := CloneEach(t, p, qs, a);
      CopyRows(t, qs, a, r.t.blocks, r.t.nextBlock, r.ids) && ParentGains(t, r.t, p, r.ids)
  {
    if |qs| > 0 {
      var pre := qs[..|qs| - 1];
      assert forall c :: c in pre ==> c in qs;
      var c0 := CloneEach(t, p, pre, a);
      CloneEachCopies(t, p, pre, a);
      var b := qs[|qs| - 1];
      CloneContentBlockGrows(c0.t, b, a);
      var c := CloneBlock(c0.t, c0.t, b, a);
      CopyRowsStep(t, qs, a, c0, c);
      ParentGainsStep(t, c0.t, c.t, p, c0.ids, c.block);
    }
  }

  /** The rows of the last pass of the loop of clones. */
  lemma CopyRowsStep(t: Tables, qs: seq<nat>, a: Attrs, c0: Copied, c: Cloned)
    requires |qs| > 0 && forall c :: c in qs ==> c in t.blocks
    requires KeepsBlocks(t, c0.t)
    requires CopyRows(t, qs[..|qs| - 1], a, c0.t.blocks, c0.t.nextBlock, c0.ids)
    requires KeepsBlocks(c0.t, c.t) && c0.t.nextBlock <= c.t.nextBlock
    requires t.nextBlock <= c0.t.nextBlock && (forall x :: x in t.blocks ==> x < t.nextBlock)
    requires c.block == c0.t.nextBlock && c.block in c.t.blocks && c.block < c.t.nextBlock
    requires c.t.blocks[c.block] == ApplyAttrs(c0.t.blocks[qs[|qs| - 1]], a)
    ensures CopyRows(t, qs, a, c.t.blocks, c.t.nextBlock, c0.ids + [c.block])
  {
  }

  /** The parents of the last pass of the loop of clones. */
  lemma ParentGainsStep(t: Tables, t1: Tables, t2: Tables, p: nat, ids: seq<nat>, b: nat)
    requires ParentGains(t, t1, p, ids) && t2.parents == t1.parents
    ensures ParentGains(t, AddToParent(t2, p, b), p, ids + [b])
  {
    assert Ids(ids + [b]) == Ids(ids) + {b};
  }

  // ---------------------------------------------------------------------
  // Delete some blocks of the parent, then clone a queryset into it

  /** The blocks of parent `p` that satisfy `gone`: what
      `parent.content_blocks.<gone>().delete()` names. */
  function Dead(t: Tables, p: nat, gone: Cond): set<nat>
    requires p in t.parents
  {
    Ids(Where(t, ParentBlocks(t, p), gone))
  }

  /** The queryset the loop clones: the blocks of parent `src` that satisfy
      `pick`, as it reads once the delete is done. */
  function Source(t: Tables, p: nat, gone: Cond, src: nat, pick: Cond): (qs: seq<nat>)
    requires Valid(t) && p in t.parents && src in t.parents
    ensures forall c :: c in qs ==> c in Delete(t, Dead(t, p, gone), {}).blocks
  {
    var d := Delete(t, Dead(t, p, gone), {});
    Where(d, ParentBlocks(d, src), pick)
  }

  /** Delete the blocks of parent `p` that satisfy `gone`, then clone into
      `p` the blocks of parent `src` that satisfy `pick`. */
  function Replace(t: Tables, p: nat, gone: Cond, src: nat, pick: Cond, a: Attrs): (r: Copied)
    requires Valid(t) && p in t.parents && src in t.parents && a.parent.None?
  {
    DeletePreservesValid(t, Dead(t, p, gone), {});
    CloneEach(Delete(t, Dead(t, p, gone), {}), p, Source(t, p, gone, src, pick), a)
  }

  /** The loop of the copying forms, shared by publish, reset and
      import. */
  method ReplaceLoop(t: Tables, p: nat, gone: Cond, src: nat, pick: Cond, a: Attrs) returns (r: Copied)
    requires Valid(t) && p in t.parents && src in t.parents && a.parent.None?
    ensures r == Replace(t, p, gone, src, pick, a)
  {
    var dead := Ids(Where(t, ParentBlocks(t, p), gone));
    DeletePreservesValid(t, dead, {});
    var d := Delete(t, dead, {});
    r := CloneEachLoop(d, p, Where(d, ParentBlocks(d, src), pick), a);
    assert Source(t, p, gone, src, pick) == Where(d, ParentBlocks(d, src), pick);
  }

  /** `for b in qs: parent.content_blocks.add(clone_content_block(b, attrs))`. */
  method CloneEachLoop(t: Tables, p: nat, qs: seq<nat>, a: Attrs) returns (r: Copied)
    requires Valid(t) && p in t.parents && a.parent.None?
    requires forall c :: c in qs ==> c in t.blocks
    ensures r == CloneEach(t, p, qs, a)
  {
    r := Copied(t, []);
    for i := 0 to |qs|
      invariant r == CloneEach(t, p, qs[..i], a)
    {
      CloneEachSnoc(t, p, qs, i, a);
      var nt, nb := CloneContentBlock(r.t, qs[i], a);
      r := Copied(AddToParent(nt, p, nb), r.ids + [nb]);
    }
    assert qs[..|qs|] == qs;
  }

  // ---------------------------------------------------------------------
  // What a replace does

  /** Every block in a parent's relation is the root of a block tree (the
      forms only ever add top-level blocks to a parent). */
  ghost predicate TopLevel(t: Tables) {
    forall q, c :: q in t.parents && c in t.parents[q].blocks ==> c in t.blocks && t.blocks[c].parent.None?
  }

  /** Two increasing querysets with the same members are the same. */
  lemma {:induction false} IncreasingEq(xs: seq<nat>, ys: seq<nat>)
    requires Increasing(xs) && Increasing(ys)
    requires forall x :: x in xs <==> x in ys
    ensures xs == ys
    decreases |xs|
  {
    if |xs| > 0 || |ys| > 0 {
      assert |xs| > 0 ==> xs[|xs| - 1] in ys;
      assert |ys| > 0 ==> ys[|ys| - 1] in xs;
      var lx := xs[|xs| - 1];
      var ly := ys[|ys| - 1];
      assert ly in xs;
      assert lx == ly by {
        var i :| 0 <= i < |ys| && ys[i] == lx;
        var j :| 0 <= j < |xs| && xs[j] == ly;
      }
      var px := xs[..|xs| - 1];
      var py := ys[..|ys| - 1];
      forall x ensures x in px <==> x in py {
        if x in px {
          var i :| 0 <= i < |px| && px[i] == x;
          assert x in ys && x != ly;
          var j :| 0 <= j < |ys| && ys[j] == x;
          assert j < |ys| - 1;
          assert py[j] == x;
        }
        if x in py {
          var j :| 0 <= j < |py| && py[j] == x;
          assert x in xs && x != lx;
          var i :| 0 <= i < |xs| && xs[i] == x;
          assert i < |xs| - 1;
          assert px[i] == x;
        }
      }
      IncreasingEq(px, py);
      assert xs == px + [lx] && ys == py + [ly];
    }
  }

  /** Deleting named top-level blocks: they are gone, every parent's
      relation loses exactly them, every other top-level block stays as it
      was, and the counters and templates stay. */
  lemma DeleteNamed(t: Tables, dead: set<nat>)
    requires Valid(t) && TopLevel(t)
    ensures var d := Delete(t, dead, {});
      && Valid(d) && TopLevel(d) && d.nextBlock == t.nextBlock
      && d.parents.Keys == t.parents.Keys
      && (forall q :: q in t.parents ==> d.parents[q].blocks == t.parents[q].blocks - dead)
      && (forall c :: c in dead ==> c !in d.blocks)
      && (forall c :: c in t.blocks && c !in dead && t.blocks[c].parent.None? ==>
            c in d.blocks && d.blocks[c] == t.blocks[c])
      && (forall c :: c in d.blocks ==> c in t.blocks)
  {
    DeletePreservesValid(t, dead, {});
    var d := Delete(t, dead, {});
    forall q | q in t.parents ensures d.parents[q].blocks == t.parents[q].blocks - dead {
      forall c | c in t.parents[q].blocks ensures DoomedBlock(t, dead, {}, c) <==> c in dead {
        TopLevelDoomedOnlyIfNamed(t, dead, {}, c);
      }
    }
    forall c | c in t.blocks && c !in dead && t.blocks[c].parent.None?
      ensures c in d.blocks
    {
      TopLevelDoomedOnlyIfNamed(t, dead, {}, c);
    }
  }

  /** The members of the cloned queryset: the blocks of `src` that are not
      deleted and satisfy `pick`, with their rows unchanged. */
  lemma SourceMembers(t: Tables, p: nat, gone: Cond, src: nat, pick: Cond)
    requires Valid(t) && TopLevel(t) && p in t.parents && src in t.parents
    ensures var qs := Source(t, p, gone, src, pick); var dead := Dead(t, p, gone);
      && Increasing(qs)
      && (forall c :: c in qs <==>
            c in t.parents[src].blocks && c !in dead && Holds(t, pick, t.blocks[c]))
      && (forall c :: c in qs ==>
            c in t.blocks && t.blocks[c].parent.None? && Delete(t, dead, {}).blocks[c] == t.blocks[c])
  {
    DeleteNamed(t, Dead(t, p, gone));
  }

  /** A replace keeps the rows consistent and every parent relation
      top-level; the deleted blocks are gone; parent `p`'s relation is
      what survived plus the copies; every other relation only loses the
      deleted blocks; surviving related blocks are unchanged; and there is
      one fresh copy per block of the cloned queryset, each its original
      with `attrs` applied. */
  lemma ReplaceShape(t: Tables, p: nat, gone: Cond, src: nat, pick: Cond, a: Attrs)
    requires Valid(t) && TopLevel(t) && p in t.parents && src in t.parents && a.parent.None?
    ensures var r := Replace(t, p, gone, src, pick, a); var dead := Dead(t, p, gone);
      var qs := Source(t, p, gone, src, pick);
      && Valid(r.t) && TopLevel(r.t) && r.t.templates == t.templates
      && (forall c :: c in dead ==> c !in r.t.blocks)
      && p in r.t.parents && r.t.parents[p].blocks == (t.parents[p].blocks - dead) + Ids(r.ids)
      && (forall q :: q in t.parents && q != p ==>
            q in r.t.parents && r.t.parents[q].blocks == t.parents[q].blocks - dead)
      && (forall q, c :: q in t.parents && c in t.parents[q].blocks && c !in dead ==>
            c in r.t.blocks && r.t.blocks[c] == t.blocks[c])
      && |r.ids| == |qs| && Increasing(r.ids)
      && (forall i :: 0 <= i < |qs| ==>
            && qs[i] in t.blocks && r.ids[i] !in t.blocks && r.ids[i] in r.t.blocks
            && r.t.blocks[r.ids[i]] == ApplyAttrs(t.blocks[qs[i]], a))
  {
    var dead := Dead(t, p, gone);
    DeleteNamed(t, dead);
    SourceMembers(t, p, gone, src, pick);
    var d := Delete(t, dead, {});
    var qs := Source(t, p, gone, src, pick);
    CloneEachCopies(d, p, qs, a);
    ReplaceTopLevel(d, p, qs, a);
  }

  /** Copies of top-level blocks added to a parent keep every relation
      top-level. */
  lemma ReplaceTopLevel(d: Tables, p: nat, qs: seq<nat>, a: Attrs)
    requires Valid(d) && TopLevel(d) && p in d.parents && a.parent.None?
    requires forall c :: c in qs ==> c in d.blocks && d.blocks[c].parent.None?
    requires var r := CloneEach(d, p, qs, a);
      CopyRows(d, qs, a, r.t.blocks, r.t.nextBlock, r.ids) && ParentGains(d, r.t, p, r.ids)
    ensures TopLevel(CloneEach(d, p, qs, a).t)
  {
    var r := CloneEach(d, p, qs, a);
    CopiesTopLevel(d, r.t, p, qs, a, r.ids);
  }

  lemma CopiesTopLevel(d: Tables, r: Tables, p: nat, qs: seq<nat>, a: Attrs, ids: seq<nat>)
    requires TopLevel(d) && a.parent.None?
    requires forall c :: c in qs ==> c in d.blocks && d.blocks[c].parent.None?
    requires KeepsBlocks(d, r) && r.parents.Keys == d.parents.Keys
    requires CopyRows(d, qs, a, r.blocks, r.nextBlock, ids) && ParentGains(d, r, p, ids)
    ensures TopLevel(r)
  {
    forall q, c | q in r.parents && c in r.parents[q].blocks
      ensures c in r.blocks && r.blocks[c].parent.None?
    {
      if c !in d.parents[q].blocks {
        var i :| 0 <= i < |ids| && ids[i] == c;
        assert qs[i] in qs;
      }
    }
  }

  // ---------------------------------------------------------------------
  // PublishContentBlocksForm, ResetContentBlocksForm, ImportContentBlocksForm

  /** The rows `PublishContentBlocksForm.save` leaves: the parent's
      published blocks deleted, then a published copy of each of its
      drafts added to it. */
  function PublishRows(t: Tables, p: nat): Copied
    requires Valid(t) && p in t.parents
  {
    Replace(t, p, PublishedRow, p, DraftRow, Attrs(Some(false), None))
  }

  /** `ResetContentBlocksForm.save`: the parent's drafts deleted, then a
      draft copy of each of its published blocks added to it. */
  function ResetRows(t: Tables, p: nat): Copied
    requires Valid(t) && p in t.parents
  {
    Replace(t, p, DraftRow, p, PublishedRow, Attrs(Some(true), None))
  }

  /** `ImportContentBlocksForm.get_master_queryset`: the other rows of the
      parent's model. */
  function MasterChoices(t: Tables, p: nat): (r: seq<nat>)
    requires Valid(t) && p in t.parents
    ensures forall q :: q in r <==> q in t.parents && t.parents[q].model == t.parents[p].model && q != p
    ensures p !in r
  {
    Enumerate(t.nextParent, set q | q in t.parents && t.parents[q].model == t.parents[p].model && q != p)
  }

  /** `ImportContentBlocksForm.save` with master `m`: the parent's drafts
      deleted, then a copy of each of the master's drafts (as the
      queryset reads after the delete) added to the parent; the copies
      keep every column, so they are drafts too. */
  function ImportRows(t: Tables, p: nat, m: nat): Copied
    requires Valid(t) && p in t.parents && m in t.parents
  {
    Replace(t, p, DraftRow, m, DraftRow, Attrs(None, None))
  }

  method SaveResetContentBlocksForm(t: Tables, p: nat) returns (r: Copied)
    requires Valid(t) && p in t.parents
    ensures r == ResetRows(t, p)
  {
    r := ReplaceLoop(t, p, DraftRow, p, PublishedRow, Attrs(Some(true), None));
  }

  method SaveImportContentBlocksForm(t: Tables, p: nat, m: nat) returns (r: Copied)
    requires Valid(t) && p in t.parents && m in MasterChoices(t, p)
    ensures r == ImportRows(t, p, m)
  {
    r := ReplaceLoop(t, p, DraftRow, m, DraftRow, Attrs(None, None));
  }

  /** When `pick` and `gone` exclude each other and the source relation
      loses nothing else, the cloned queryset is the source's `pick`
      queryset as it read before the delete. */
  lemma SourceBeforeDelete(t: Tables, p: nat, gone: Cond, src: nat, pick: Cond)
    requires Valid(t) && TopLevel(t) && p in t.parents && src in t.parents
    requires forall c :: c in t.parents[src].blocks && c in Dead(t, p, gone) ==> !Holds(t, pick, t.blocks[c])
    ensures Source(t, p, gone, src, pick) == Where(t, ParentBlocks(t, src), pick)
  {
    SourceMembers(t, p, gone, src, pick);
    IncreasingEq(Source(t, p, gone, src, pick), Where(t, ParentBlocks(t, src), pick));
  }

  /** A queryset of a relation that lost `dead` and gained `ids`, on a
      condition no dead row and no added row meets, reads as before. */
  lemma KeptWhere(t: Tables, r: Tables, p: nat, dead: set<nat>, ids: seq<nat>, keep: Cond)
    requires Valid(t) && Valid(r) && p in t.parents && p in r.parents && r.templates == t.templates
    requires r.parents[p].blocks == (t.parents[p].blocks - dead) + Ids(ids)
    requires forall c :: c in t.parents[p].blocks && c !in dead ==> c in r.blocks && r.blocks[c] == t.blocks[c]
    requires forall c :: c in t.parents[p].blocks && c in dead && c in t.blocks ==> !Holds(t, keep, t.blocks[c])
    requires forall c :: c in ids ==> c in r.blocks && !Holds(r, keep, r.blocks[c])
    ensures Where(r, ParentBlocks(r, p), keep) == Where(t, ParentBlocks(t, p), keep)
  {
    IncreasingEq(Where(r, ParentBlocks(r, p), keep), Where(t, ParentBlocks(t, p), keep));
  }

  /** A queryset of a relation that lost `dead` and gained `ids`, on a
      condition every added row meets and no kept row does: the added
      rows, in order. */
  lemma AddedWhere(t: Tables, r: Tables, p: nat, dead: set<nat>, ids: seq<nat>, shown: Cond)
    requires Valid(t) && Valid(r) && p in t.parents && p in r.parents && r.templates == t.templates
    requires r.parents[p].blocks == (t.parents[p].blocks - dead) + Ids(ids)
    requires forall c :: c in t.parents[p].blocks && c !in dead ==>
      c in r.blocks && r.blocks[c] == t.blocks[c] && !Holds(t, shown, t.blocks[c])
    requires forall c :: c in ids ==> c in r.blocks && Holds(r, shown, r.blocks[c])
    requires Increasing(ids)
    ensures Where(r, ParentBlocks(r, p), shown) == ids
  {
    IncreasingEq(Where(r, ParentBlocks(r, p), shown), ids);
  }

  /** Rows of the copies, by membership rather than by position. */
  lemma CopiesHold(t: Tables, r: Tables, qs: seq<nat>, ids: seq<nat>, a: Attrs, cond: Cond, want: bool)
    requires |ids| == |qs| && r.templates == t.templates
    requires forall i :: 0 <= i < |qs| ==>
      qs[i] in t.blocks && ids[i] in r.blocks && r.blocks[ids[i]] == ApplyAttrs(t.blocks[qs[i]], a)
    requires forall c :: c in qs ==> c in t.blocks && Holds(t, cond, ApplyAttrs(t.blocks[c], a)) == want
    ensures forall c :: c in ids ==> c in r.blocks && Holds(r, cond, r.blocks[c]) == want
  {
    forall c | c in ids ensures c in r.blocks && Holds(r, cond, r.blocks[c]) == want {
      var i :| 0 <= i < |ids| && ids[i] == c;
      assert qs[i] in qs;
    }
  }

  /** The querysets of parent `p` after a replace that deletes its `gone`
      blocks, where `keep` is the complement of `gone` and the copies
      are all `gone`-kind: the `gone` queryset is exactly the copies, in
      order, and the `keep` queryset and its rows are untouched. */
  lemma ReplaceQuerysets(t: Tables, p: nat, gone: Cond, keep: Cond, src: nat, pick: Cond, a: Attrs)
    requires Valid(t) && TopLevel(t) && p in t.parents && src in t.parents && a.parent.None?
    requires forall b: Block :: Holds(t, keep, b) != Holds(t, gone, b)
    requires forall b: Block :: Holds(t, pick, b) ==> Holds(t, gone, ApplyAttrs(b, a))
    requires forall c :: c in t.parents[src].blocks && c in Dead(t, p, gone) ==> !Holds(t, pick, t.blocks[c])
    ensures var r := Replace(t, p, gone, src, pick, a);
      && Valid(r.t) && TopLevel(r.t) && p in r.t.parents
      && Where(r.t, ParentBlocks(r.t, p), gone) == r.ids
      && Where(r.t, ParentBlocks(r.t, p), keep) == Where(t, ParentBlocks(t, p), keep)
      && (forall c :: c in Where(t, ParentBlocks(t, p), keep) ==> c in r.t.blocks && r.t.blocks[c] == t.blocks[c])
      && (forall c :: c in Where(t, ParentBlocks(t, p), gone) ==> c !in r.t.blocks)
  {
    var r := Replace(t, p, gone, src, pick, a);
    var dead := Dead(t, p, gone);
    ReplaceShape(t, p, gone, src, pick, a);
    SourceBeforeDelete(t, p, gone, src, pick);
    var qs := Where(t, ParentBlocks(t, src), pick);
    CopiesHold(t, r.t, qs, r.ids, a, gone, true);
    CopiesHold(t, r.t, qs, r.ids, a, keep, false);
    AddedWhere(t, r.t, p, dead, r.ids, gone);
    KeptWhere(t, r.t, p, dead, r.ids, keep);
  }

  /** The copies a replace adds, one per row of the source's `pick`
      queryset as it read before the delete, in its order. */
  lemma ReplaceCopies(t: Tables, p: nat, gone: Cond, src: nat, pick: Cond, a: Attrs)
    requires Valid(t) && TopLevel(t) && p in t.parents && src in t.parents && a.parent.None?
    requires forall c :: c in t.parents[src].blocks && c in Dead(t, p, gone) ==> !Holds(t, pick, t.blocks[c])
    ensures var r := Replace(t, p, gone, src, pick, a); var qs := Where(t, ParentBlocks(t, src), pick);
      && |r.ids| == |qs|
      && (forall i :: 0 <= i < |qs| ==>
            && qs[i] in t.blocks && r.ids[i] !in t.blocks && r.ids[i] in r.t.blocks
            && r.t.blocks[r.ids[i]] == ApplyAttrs(t.blocks[qs[i]], a))
  {
    ReplaceShape(t, p, gone, src, pick, a);
    SourceBeforeDelete(t, p, gone, src, pick);
  }

  /** Publishing: the published queryset of the parent becomes exactly the
      new copies, one per draft, in the drafts' order, each the draft's
      row marked published; the drafts themselves are untouched and the
      old published blocks are gone. */
  lemma PublishShape(t: Tables, p: nat)
    requires Valid(t) && TopLevel(t) && p in t.parents
    ensures var r := PublishRows(t, p); var ds := Drafts(t, ParentBlocks(t, p));
      && Valid(r.t) && TopLevel(r.t) && p in r.t.parents
      && |r.ids| == |ds|
      && (forall i :: 0 <= i < |ds| ==>
            && r.ids[i] !in t.blocks && r.ids[i] in r.t.blocks
            && r.t.blocks[r.ids[i]] == t.blocks[ds[i]].(draft := false))
      && Published(r.t, ParentBlocks(r.t, p)) == r.ids
      && Drafts(r.t, ParentBlocks(r.t, p)) == ds
      && (forall c :: c in ds ==> c in r.t.blocks && r.t.blocks[c] == t.blocks[c])
      && (forall c :: c in Published(t, ParentBlocks(t, p)) ==> c !in r.t.blocks)
  {
    ReplaceQuerysets(t, p, PublishedRow, DraftRow, p, DraftRow, Attrs(Some(false), None));
    ReplaceCopies(t, p, PublishedRow, p, DraftRow, Attrs(Some(false), None));
  }

  /** Resetting: the symmetric case, the draft queryset of the parent
      becomes exactly a draft copy of each published block. */
  lemma ResetShape(t: Tables, p: nat)
    requires Valid(t) && TopLevel(t) && p in t.parents
    ensures var r := ResetRows(t, p); var ps := Published(t, ParentBlocks(t, p));
      && Valid(r.t) && TopLevel(r.t) && p in r.t.parents
      && |r.ids| == |ps|
      && (forall i :: 0 <= i < |ps| ==>
            && r.ids[i] !in t.blocks && r.ids[i] in r.t.blocks
            && r.t.blocks[r.ids[i]] == t.blocks[ps[i]].(draft := true))
      && Drafts(r.t, ParentBlocks(r.t, p)) == r.ids
      && Published(r.t, ParentBlocks(r.t, p)) == ps
      && (forall c :: c in ps ==> c in r.t.blocks && r.t.blocks[c] == t.blocks[c])
      && (forall c :: c in Drafts(t, ParentBlocks(t, p)) ==> c !in r.t.blocks)
  {
    ReplaceQuerysets(t, p, DraftRow, PublishedRow, p, PublishedRow, Attrs(Some(true), None));
    ReplaceCopies(t, p, DraftRow, p, PublishedRow, Attrs(Some(true), None));
  }

  /** Importing from master `m` (a different row of the same model): the
      parent's draft queryset becomes exactly a copy of each of the
      master's drafts, its published blocks stay -- provided the two
      relations share no block. The many-to-many relation itself allows
      sharing; the forms keep the relations disjoint because every block
      they add to a parent is freshly created or cloned. */
  lemma ImportShape(t: Tables, p: nat, m: nat)
    requires Valid(t) && TopLevel(t) && p in t.parents && m in MasterChoices(t, p)
    requires t.parents[p].blocks !! t.parents[m].blocks
    ensures var r := ImportRows(t, p, m); var ms := Drafts(t, ParentBlocks(t, m));
      && Valid(r.t) && TopLevel(r.t) && p in r.t.parents
      && |r.ids| == |ms|
      && (forall i :: 0 <= i < |ms| ==>
            && r.ids[i] !in t.blocks && r.ids[i] in r.t.blocks
            && r.t.blocks[r.ids[i]] == t.blocks[ms[i]])
      && Drafts(r.t, ParentBlocks(r.t, p)) == r.ids
      && Published(r.t, ParentBlocks(r.t, p)) == Published(t, ParentBlocks(t, p))
  {
    DeadWithin(t, p, DraftRow);
    assert forall c :: c in t.parents[m].blocks ==> c !in Dead(t, p, DraftRow);
    assert forall b: Block :: ApplyAttrs(b, Attrs(None, None)) == b;
    ReplaceQuerysets(t, p, DraftRow, PublishedRow, m, DraftRow, Attrs(None, None));
    ReplaceCopies(t, p, DraftRow, m, DraftRow, Attrs(None, None));
  }

  /** The deleted blocks all belong to the parent's own relation. */
  lemma DeadWithin(t: Tables, p: nat, gone: Cond)
    requires Valid(t) && p in t.parents
    ensures forall c :: c in Dead(t, p, gone) ==> c in t.parents[p].blocks
  {
  }

  /** Importing leaves the master's relation and rows as they were (under
      the same disjointness). */
  lemma ImportKeepsMaster(t: Tables, p: nat, m: nat)
    requires Valid(t) && TopLevel(t) && p in t.parents && m in MasterChoices(t, p)
    requires t.parents[p].blocks !! t.parents[m].blocks
    ensures var r := ImportRows(t, p, m);
      && m in r.t.parents && r.t.parents[m].blocks == t.parents[m].blocks
      && (forall c :: c in t.parents[m].blocks ==> c in r.t.blocks && r.t.blocks[c] == t.blocks[c])
  {
    var dead := Dead(t, p, DraftRow);
    assert forall c :: c in dead ==> c in t.parents[p].blocks;
    ReplaceShape(t, p, DraftRow, m, DraftRow, Attrs(None, None));
    assert t.parents[m].blocks - dead == t.parents[m].blocks;
  }
}
