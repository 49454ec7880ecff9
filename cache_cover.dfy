/** What the bulk cache operations achieve, as opposed to what they may
    touch: after each loop every key it targets is cleared, filled or
    refreshed. The laws for one per-site loop are carried up through the
    loops over blocks, parent rows and parent models. */
module CacheCover {
  import opened Wrappers
  import opened Tables
  import opened Models
  import opened Render
  import opened Parents
  import opened Filters
  import opened Cache
  import opened CacheLaws

  /** What `op` leaves at the key of block `c` for site `st`: delete leaves
      no entry; get-or-set leaves an entry when the block can be cached; set
      leaves the HTML rendered for that site when the block can be cached. */
  ghost predicate Done(s: Settings, e: TemplateEngine, t: Tables, op: Op,
                       r: map<string, string>, c: nat, st: Option<nat>)
    requires Valid(t) && c in t.blocks
  {
    var k := CacheKey(s.prefix, c, st);
    match op
    case DeleteOp => k !in r
    case GetOrSetOp => CanCache(s.disableCache, e.found, t, c) ==> k in r
    case SetOp(_) => CanCache(s.disableCache, e.found, t, c) ==>
      k in r && r[k] == HtmlOf(e.found, e.render, t, c, None, st)
  }

  // ---------------------------------------------------------------------
  // One block

  /** A per-site loop for any block never undoes what `op` has done at a
      key: delete only removes, get-or-set never overwrites, and set
      rewrites a key only with the same render. */
  lemma SitesFoldKeeps(s: Settings, e: TemplateEngine, t: Tables, op: Op,
                       m: map<string, string>, b: nat, sites: seq<Option<nat>>, c: nat, st: Option<nat>)
    requires Valid(t) && b in t.blocks && c in t.blocks && Done(s, e, t, op, m, c, st)
    ensures Done(s, e, t, op, SitesFold(s, e, t, op, m, b, sites), c, st)
  {
    match op
    case DeleteOp =>
      SitesFoldEffect(s, e, t, op, m, b, sites);
    case GetOrSetOp =>
      GetOrSetPerSiteFillsEachSite(s, e, t, m, b, sites);
    case SetOp(q) =>
      var k := CacheKey(s.prefix, c, st);
      SitesFoldOnlyOwnKeys(s, e, t, op, m, b, sites);
      if k in KeysFor(s.prefix, b, sites) {
        var st' :| st' in sites && CacheKey(s.prefix, b, st') == k;
        CacheKeyInjective(s.prefix, b, st', c, st);
        SetPerSiteWritesEachSite(s, e, t, q, m, b, sites);
      }
  }

  lemma BlockStepKeeps(s: Settings, e: TemplateEngine, t: Tables, op: Op,
                       m: map<string, string>, b: nat, sites: seq<Option<nat>>, c: nat, st: Option<nat>)
    requires Valid(t) && b in t.blocks && c in t.blocks && Done(s, e, t, op, m, c, st)
    ensures Done(s, e, t, op, BlockStep(s, e, t, op, m, b, sites), c, st)
  {
    if !(op.GetOrSetOp? && !CanCache(s.disableCache, e.found, t, b)) {
      SitesFoldKeeps(s, e, t, op, m, b, sites, c, st);
    }
  }

  /** One block of a parent's loop does its job for every listed site. */
  lemma BlockStepDone(s: Settings, e: TemplateEngine, t: Tables, op: Op,
                      m: map<string, string>, b: nat, sites: seq<Option<nat>>)
    requires Valid(t) && b in t.blocks
    ensures forall st :: st in sites ==> Done(s, e, t, op, BlockStep(s, e, t, op, m, b, sites), b, st)
  {
    match op
    case DeleteOp =>
      DeletePerSiteRemovesEachSite(s, e, t, m, b, sites);
    case GetOrSetOp =>
      GetOrSetPerSiteFillsEachSite(s, e, t, m, b, sites);
    case SetOp(q) =>
      SetPerSiteWritesEachSite(s, e, t, q, m, b, sites);
  }

  // ---------------------------------------------------------------------
  // The loop over a parent's blocks

  /** Every block of `cbs` is done for every site of `sites`. */
  ghost predicate BlocksDone(s: Settings, e: TemplateEngine, t: Tables, op: Op,
                             r: map<string, string>, cbs: seq<nat>, sites: seq<Option<nat>>)
    requires Valid(t) && forall b :: b in cbs ==> b in t.blocks
  {
    forall c, st :: c in cbs && st in sites ==> Done(s, e, t, op, r, c, st)
  }

  lemma {:induction false} BlocksFoldKeeps(s: Settings, e: TemplateEngine, t: Tables, op: Op,
                                           m: map<string, string>, cbs: seq<nat>, sites: seq<Option<nat>>,
                                           c: nat, st: Option<nat>)
    requires Valid(t) && (forall b :: b in cbs ==> b in t.blocks) && c in t.blocks
    requires Done(s, e, t, op, m, c, st)
    ensures Done(s, e, t, op, BlocksFold(s, e, t, op, m, cbs, sites), c, st)
  {
    if |cbs| > 0 {
      var front := cbs[..|cbs| - 1];
      BlocksFoldKeeps(s, e, t, op, m, front, sites, c, st);
      BlockStepKeeps(s, e, t, op, BlocksFold(s, e, t, op, m, front, sites), cbs[|cbs| - 1], sites, c, st);
    }
  }

  /** After the loop over blocks every block and every site is done. */
  lemma {:induction false} BlocksFoldDone(s: Settings, e: TemplateEngine, t: Tables, op: Op,
                                          m: map<string, string>, cbs: seq<nat>, sites: seq<Option<nat>>)
    requires Valid(t) && forall b :: b in cbs ==> b in t.blocks
    ensures BlocksDone(s, e, t, op, BlocksFold(s, e, t, op, m, cbs, sites), cbs, sites)
  {
    if |cbs| > 0 {
      var front := cbs[..|cbs| - 1];
      var b := cbs[|cbs| - 1];
      var m1 := BlocksFold(s, e, t, op, m, front, sites);
      BlocksFoldDone(s, e, t, op, m, front, sites);
      BlockStepDone(s, e, t, op, m1, b, sites);
      forall c, st | c in cbs && st in sites
        ensures Done(s, e, t, op, BlocksFold(s, e, t, op, m, cbs, sites), c, st)
      {
        if c != b {
          assert cbs == front + [b];
          BlockStepKeeps(s, e, t, op, m1, b, sites, c, st);
        }
      }
    }
  }

  /** A later loop over blocks keeps what an earlier one did. */
  lemma BlocksDoneKept(s: Settings, e: TemplateEngine, t: Tables, op: Op, m: map<string, string>,
                       cbs: seq<nat>, sites: seq<Option<nat>>, cbs2: seq<nat>, sites2: seq<Option<nat>>)
    requires Valid(t) && (forall b :: b in cbs ==> b in t.blocks) && (forall b :: b in cbs2 ==> b in t.blocks)
    requires BlocksDone(s, e, t, op, m, cbs, sites)
    ensures BlocksDone(s, e, t, op, BlocksFold(s, e, t, op, m, cbs2, sites2), cbs, sites)
  {
    forall c, st | c in cbs && st in sites
      ensures Done(s, e, t, op, BlocksFold(s, e, t, op, m, cbs2, sites2), c, st)
    {
      BlocksFoldKeeps(s, e, t, op, m, cbs2, sites2, c, st);
    }
  }

  // ---------------------------------------------------------------------
  // The loop over a model's parent rows

  /** Every target of row `p` is done for every site of the row. */
  ghost predicate RowDone(s: Settings, e: TemplateEngine, t: Tables, op: Op, r: map<string, string>, p: nat)
    requires Valid(t) && p in t.parents
  {
    BlocksDone(s, e, t, op, r, ParentTargets(t, op, p), ParentSites(t.parents[p].sitesField))
  }

  /** Every row of `ps` is done. */
  ghost predicate RowsDone(s: Settings, e: TemplateEngine, t: Tables, op: Op, r: map<string, string>, ps: seq<nat>)
    requires Valid(t) && forall p :: p in ps ==> p in t.parents
  {
    forall p :: p in ps ==> RowDone(s, e, t, op, r, p)
  }

  lemma {:induction false} ParentsFoldKeeps(s: Settings, e: TemplateEngine, t: Tables, op: Op,
                                            m: map<string, string>, ps: seq<nat>, c: nat, st: Option<nat>)
    requires Valid(t) && (forall p :: p in ps ==> p in t.parents) && c in t.blocks
    requires Done(s, e, t, op, m, c, st)
    ensures Done(s, e, t, op, ParentsFold(s, e, t, op, m, ps), c, st)
  {
    if |ps| > 0 {
      var front := ps[..|ps| - 1];
      var p := ps[|ps| - 1];
      ParentsFoldKeeps(s, e, t, op, m, front, c, st);
      BlocksFoldKeeps(s, e, t, op, ParentsFold(s, e, t, op, m, front), ParentTargets(t, op, p),
                      ParentSites(t.parents[p].sitesField), c, st);
    }
  }

  /** One more row: the new row is done and the earlier rows stay done. */
  lemma ParentStepDone(s: Settings, e: TemplateEngine, t: Tables, op: Op,
                       m: map<string, string>, front: seq<nat>, q: nat)
    requires Valid(t) && (forall p :: p in front ==> p in t.parents) && q in t.parents
    requires RowsDone(s, e, t, op, m, front)
    ensures RowsDone(s, e, t, op, ParentStep(s, e, t, op, m, q), front + [q])
  {
    BlocksFoldDone(s, e, t, op, m, ParentTargets(t, op, q), ParentSites(t.parents[q].sitesField));
    forall p | p in front + [q]
      ensures RowDone(s, e, t, op, ParentStep(s, e, t, op, m, q), p)
    {
      if p != q {
        assert RowDone(s, e, t, op, m, p);
        BlocksDoneKept(s, e, t, op, m, ParentTargets(t, op, p), ParentSites(t.parents[p].sitesField),
                       ParentTargets(t, op, q), ParentSites(t.parents[q].sitesField));
      }
    }
  }

  /** `*_parent_model`: after the loop over the rows, every target of every
      row is done for every site of that row. */
  lemma {:induction false} ParentsFoldDone(s: Settings, e: TemplateEngine, t: Tables, op: Op,
                                           m: map<string, string>, ps: seq<nat>)
    requires Valid(t) && forall p :: p in ps ==> p in t.parents
    ensures RowsDone(s, e, t, op, ParentsFold(s, e, t, op, m, ps), ps)
  {
    if |ps| > 0 {
      var front := ps[..|ps| - 1];
      ParentsFoldDone(s, e, t, op, m, front);
      assert ps == front + [ps[|ps| - 1]];
      ParentStepDone(s, e, t, op, ParentsFold(s, e, t, op, m, front), front, ps[|ps| - 1]);
    }
  }

  /** A later loop over rows keeps what an earlier one did. */
  lemma RowsDoneKept(s: Settings, e: TemplateEngine, t: Tables, op: Op, m: map<string, string>,
                     ps: seq<nat>, ps2: seq<nat>)
    requires Valid(t) && (forall p :: p in ps ==> p in t.parents) && (forall p :: p in ps2 ==> p in t.parents)
    requires RowsDone(s, e, t, op, m, ps)
    ensures RowsDone(s, e, t, op, ParentsFold(s, e, t, op, m, ps2), ps)
  {
    forall p | p in ps ensures RowDone(s, e, t, op, ParentsFold(s, e, t, op, m, ps2), p) {
      assert RowDone(s, e, t, op, m, p);
      forall c, st | c in ParentTargets(t, op, p) && st in ParentSites(t.parents[p].sitesField)
        ensures Done(s, e, t, op, ParentsFold(s, e, t, op, m, ps2), c, st)
      {
        ParentsFoldKeeps(s, e, t, op, m, ps2, c, st);
      }
    }
  }

  // ---------------------------------------------------------------------
  // The loop over the parent models

  /** Every row of every model of `models` is done. */
  ghost predicate ModelsDone(s: Settings, e: TemplateEngine, t: Tables, op: Op, r: map<string, string>,
                             models: seq<ModelClass>)
    requires Valid(t)
  {
    forall mc :: mc in models ==> RowsDone(s, e, t, op, r, ParentsOfModel(t, mc.name))
  }

  lemma {:induction false} ModelsFoldDone(s: Settings, e: TemplateEngine, t: Tables, op: Op,
                                          m: map<string, string>, models: seq<ModelClass>)
    requires Valid(t)
    ensures ModelsDone(s, e, t, op, ModelsFold(s, e, t, op, m, models), models)
  {
    if |models| > 0 {
      var front := models[..|models| - 1];
      var last := models[|models| - 1];
      var m1 := ModelsFold(s, e, t, op, m, front);
      var ps := ParentsOfModel(t, last.name);
      ModelsFoldDone(s, e, t, op, m, front);
      ParentsFoldDone(s, e, t, op, m1, ps);
      forall mc | mc in models
        ensures RowsDone(s, e, t, op, ModelsFold(s, e, t, op, m, models), ParentsOfModel(t, mc.name))
      {
        if mc != last {
          assert models == front + [last];
          assert mc in front;
          RowsDoneKept(s, e, t, op, m1, ParentsOfModel(t, mc.name), ps);
        }
      }
    }
  }

  /** `ModelsDone` read at one block and site. */
  lemma ModelsDoneAt(s: Settings, e: TemplateEngine, t: Tables, op: Op, r: map<string, string>,
                     models: seq<ModelClass>, mc: ModelClass, p: nat, c: nat, st: Option<nat>)
    requires Valid(t) && ModelsDone(s, e, t, op, r, models)
    requires mc in models && p in ParentsOfModel(t, mc.name)
    requires c in ParentTargets(t, op, p) && st in ParentSites(t.parents[p].sitesField)
    ensures Done(s, e, t, op, r, c, st)
  {
    assert RowsDone(s, e, t, op, r, ParentsOfModel(t, mc.name));
    assert RowDone(s, e, t, op, r, p);
  }

  /** `*_all`, repaired: every target of every row of every registered
      parent model is done for every site of its row. With caching disabled
      get-or-set and set return at once, and no block can be cached, so
      nothing was asked of them. */
  lemma AllFoldDone(s: Settings, e: TemplateEngine, t: Tables, op: Op,
                    m: map<string, string>, registry: seq<ModelClass>, base: string)
    requires Valid(t)
    ensures ModelsDone(s, e, t, op, AllFold(s, e, t, op, m, registry, base), ParentModels(registry, base))
  {
    if op.DeleteOp? || !s.disableCache {
      ModelsFoldDone(s, e, t, op, m, ParentModels(registry, base));
    } else {
      var r := AllFold(s, e, t, op, m, registry, base);
      forall mc | mc in ParentModels(registry, base)
        ensures RowsDone(s, e, t, op, r, ParentsOfModel(t, mc.name))
      {
        forall p | p in ParentsOfModel(t, mc.name) ensures RowDone(s, e, t, op, r, p) {
          forall c, st | c in ParentTargets(t, op, p) && st in ParentSites(t.parents[p].sitesField)
            ensures Done(s, e, t, op, r, c, st)
          {
            assert !CanCache(s.disableCache, e.found, t, c);
          }
        }
      }
    }
  }

  /** `delete_cache_all`, repaired: no key of a target block remains, for
      any site of its row. */
  lemma AllFoldDeletes(s: Settings, e: TemplateEngine, t: Tables,
                       m: map<string, string>, registry: seq<ModelClass>, base: string)
    requires Valid(t)
    ensures forall mc, p, c, st ::
      mc in ParentModels(registry, base) && p in ParentsOfModel(t, mc.name) && c in ParentTargets(t, DeleteOp, p)
      && st in ParentSites(t.parents[p].sitesField) ==>
      CacheKey(s.prefix, c, st) !in AllFold(s, e, t, DeleteOp, m, registry, base)
  {
    var r := AllFold(s, e, t, DeleteOp, m, registry, base);
    AllFoldDone(s, e, t, DeleteOp, m, registry, base);
    forall mc, p, c, st | mc in ParentModels(registry, base) && p in ParentsOfModel(t, mc.name)
                          && c in ParentTargets(t, DeleteOp, p) && st in ParentSites(t.parents[p].sitesField)
      ensures CacheKey(s.prefix, c, st) !in r
    {
      ModelsDoneAt(s, e, t, DeleteOp, r, ParentModels(registry, base), mc, p, c, st);
    }
  }

  /** `get_or_set_cache_all`, repaired: every target block that can be
      cached has an entry for every site of its row. */
  lemma AllFoldFills(s: Settings, e: TemplateEngine, t: Tables,
                     m: map<string, string>, registry: seq<ModelClass>, base: string)
    requires Valid(t)
    ensures forall mc, p, c, st ::
      mc in ParentModels(registry, base) && p in ParentsOfModel(t, mc.name) && c in ParentTargets(t, GetOrSetOp, p)
      && st in ParentSites(t.parents[p].sitesField) && CanCache(s.disableCache, e.found, t, c) ==>
      CacheKey(s.prefix, c, st) in AllFold(s, e, t, GetOrSetOp, m, registry, base)
  {
    var r := AllFold(s, e, t, GetOrSetOp, m, registry, base);
    AllFoldDone(s, e, t, GetOrSetOp, m, registry, base);
    forall mc, p, c, st | mc in ParentModels(registry, base) && p in ParentsOfModel(t, mc.name)
                          && c in ParentTargets(t, GetOrSetOp, p) && st in ParentSites(t.parents[p].sitesField)
                          && CanCache(s.disableCache, e.found, t, c)
      ensures CacheKey(s.prefix, c, st) in r
    {
      ModelsDoneAt(s, e, t, GetOrSetOp, r, ParentModels(registry, base), mc, p, c, st);
    }
  }

  /** The key of block `c` for site `st` holds the HTML rendered for that
      site. */
  ghost predicate Refreshed(s: Settings, e: TemplateEngine, t: Tables, r: map<string, string>, c: nat, st: Option<nat>)
    requires Valid(t) && c in t.blocks
  {
    CacheKey(s.prefix, c, st) in r && r[CacheKey(s.prefix, c, st)] == HtmlOf(e.found, e.render, t, c, None, st)
  }

  /** `set_cache_all`, repaired: every target block that can be cached is
      refreshed for every site of its row. */
  lemma AllFoldRefreshes(s: Settings, e: TemplateEngine, t: Tables, q: Option<seq<nat>>,
                         m: map<string, string>, registry: seq<ModelClass>, base: string)
    requires Valid(t)
    ensures forall mc, p, c, st ::
      mc in ParentModels(registry, base) && p in ParentsOfModel(t, mc.name) && c in ParentTargets(t, SetOp(q), p)
      && st in ParentSites(t.parents[p].sitesField) && CanCache(s.disableCache, e.found, t, c) ==>
      Refreshed(s, e, t, AllFold(s, e, t, SetOp(q), m, registry, base), c, st)
  {
    var r := AllFold(s, e, t, SetOp(q), m, registry, base);
    AllFoldDone(s, e, t, SetOp(q), m, registry, base);
    forall mc, p, c, st | mc in ParentModels(registry, base) && p in ParentsOfModel(t, mc.name)
                          && c in ParentTargets(t, SetOp(q), p) && st in ParentSites(t.parents[p].sitesField)
                          && CanCache(s.disableCache, e.found, t, c)
      ensures Refreshed(s, e, t, r, c, st)
    {
      ModelsDoneAt(s, e, t, SetOp(q), r, ParentModels(registry, base), mc, p, c, st);
    }
  }
}
