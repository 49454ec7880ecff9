/** Laws of the bulk cache operations: which keys each per-site loop
    touches, what it leaves there, and what the loops over parents and
    models can and cannot do to the store. */
module CacheLaws {
  import opened Wrappers
  import opened Tables
  import opened Models
  import opened Render
  import opened Parents
  import opened Cache

  /** The keys of block `b` for the given sites. */
  function KeysFor(prefix: string, b: nat, sites: seq<Option<nat>>): set<string> {
    set st | st in sites :: CacheKey(prefix, b, st)
  }

  /** `r` agrees with `m` on key `k`. */
  ghost predicate SameAt(m: map<string, string>, r: map<string, string>, k: string) {
    (k in r <==> k in m) && (k in r ==> r[k] == m[k])
  }

  /** A per-site loop touches only the block's own keys for those sites. */
  lemma {:induction false} SitesFoldOnlyOwnKeys(s: Settings, e: TemplateEngine, t: Tables, op: Op,
                                                m: map<string, string>, b: nat, sites: seq<Option<nat>>)
    requires Valid(t) && b in t.blocks
    ensures forall k :: k !in KeysFor(s.prefix, b, sites) ==> SameAt(m, SitesFold(s, e, t, op, m, b, sites), k)
  {
    if |sites| > 0 {
      var front := sites[..|sites| - 1];
      var st := sites[|sites| - 1];
      assert sites == front + [st];
      SitesFoldOnlyOwnKeys(s, e, t, op, m, b, front);
      assert EffectiveSite(None, st) == st;
      assert KeysFor(s.prefix, b, sites) == KeysFor(s.prefix, b, front) + {CacheKey(s.prefix, b, st)};
    }
  }

  /** So a per-site loop for one block leaves every other block's keys
      alone (keys are injective). */
  lemma SitesFoldOtherBlocks(s: Settings, e: TemplateEngine, t: Tables, op: Op,
                             m: map<string, string>, b: nat, sites: seq<Option<nat>>, other: nat, site: Option<nat>)
    requires Valid(t) && b in t.blocks && other != b
    ensures SameAt(m, SitesFold(s, e, t, op, m, b, sites), CacheKey(s.prefix, other, site))
  {
    SitesFoldOnlyOwnKeys(s, e, t, op, m, b, sites);
    if CacheKey(s.prefix, other, site) in KeysFor(s.prefix, b, sites) {
      var st :| st in sites && CacheKey(s.prefix, b, st) == CacheKey(s.prefix, other, site);
      CacheKeyInjective(s.prefix, b, st, other, site);
    }
  }

  /** `set_cache_per_site` leaves, for every listed site, the HTML rendered
      for that site, when the block can be cached; otherwise it changes
      nothing. */
  lemma {:induction false} SetPerSiteWritesEachSite(s: Settings, e: TemplateEngine, t: Tables, q: Option<seq<nat>>,
                                                    m: map<string, string>, b: nat, sites: seq<Option<nat>>)
    requires Valid(t) && b in t.blocks
    ensures var r := SitesFold(s, e, t, SetOp(q), m, b, sites);
      && (CanCache(s.disableCache, e.found, t, b) ==>
            forall st :: st in sites ==>
              CacheKey(s.prefix, b, st) in r && r[CacheKey(s.prefix, b, st)] == HtmlOf(e.found, e.render, t, b, None, st))
      && (!CanCache(s.disableCache, e.found, t, b) ==> r == m)
  {
    if |sites| > 0 {
      var front := sites[..|sites| - 1];
      var last := sites[|sites| - 1];
      assert sites == front + [last];
      SetPerSiteWritesEachSite(s, e, t, q, m, b, front);
      var r0 := SitesFold(s, e, t, SetOp(q), m, b, front);
      if CanCache(s.disableCache, e.found, t, b) {
        forall st | st in sites
          ensures CacheKey(s.prefix, b, st) in SitesFold(s, e, t, SetOp(q), m, b, sites)
          ensures SitesFold(s, e, t, SetOp(q), m, b, sites)[CacheKey(s.prefix, b, st)] == HtmlOf(e.found, e.render, t, b, None, st)
        {
          if st != last {
            assert st in front;
            if CacheKey(s.prefix, b, st) == CacheKey(s.prefix, b, last) {
              CacheKeyInjective(s.prefix, b, st, b, last);
            }
          }
        }
      }
    }
  }

  /** `delete_cache_per_site` removes the block's key for every listed site
      (and, by the law above, nothing else). */
  lemma {:induction false} DeletePerSiteRemovesEachSite(s: Settings, e: TemplateEngine, t: Tables,
                                                        m: map<string, string>, b: nat, sites: seq<Option<nat>>)
    requires Valid(t) && b in t.blocks
    ensures forall st :: st in sites ==> CacheKey(s.prefix, b, st) !in SitesFold(s, e, t, DeleteOp, m, b, sites)
  {
    if |sites| > 0 {
      var front := sites[..|sites| - 1];
      assert sites == front + [sites[|sites| - 1]];
      DeletePerSiteRemovesEachSite(s, e, t, m, b, front);
    }
  }

  /** `r` keeps every entry of `m`. */
  ghost predicate Extends(m: map<string, string>, r: map<string, string>) {
    forall k :: k in m ==> k in r && r[k] == m[k]
  }

  /** `get_or_set_cache_per_site` never overwrites an entry, and fills the
      block's key for every listed site when the block can be cached; a
      block that cannot be cached leaves the store as it was. */
  lemma {:induction false} GetOrSetPerSiteFillsEachSite(s: Settings, e: TemplateEngine, t: Tables,
                                                        m: map<string, string>, b: nat, sites: seq<Option<nat>>)
    requires Valid(t) && b in t.blocks
    ensures var r := SitesFold(s, e, t, GetOrSetOp, m, b, sites);
      && Extends(m, r)
      && (CanCache(s.disableCache, e.found, t, b) ==> forall st :: st in sites ==> CacheKey(s.prefix, b, st) in r)
      && (!CanCache(s.disableCache, e.found, t, b) ==> r == m)
  {
    if |sites| > 0 {
      var front := sites[..|sites| - 1];
      var last := sites[|sites| - 1];
      assert sites == front + [last];
      GetOrSetPerSiteFillsEachSite(s, e, t, m, b, front);
      assert EffectiveSite(None, last) == last;
    }
  }

  // ---------------------------------------------------------------------
  // What the loops over parents and models may do

  /** `k` is the key of some block that can be cached, for some site. */
  ghost predicate CacheableKey(s: Settings, e: TemplateEngine, t: Tables, k: string)
    requires Valid(t)
  {
    exists c: nat, st: Option<nat> :: c in t.blocks && CanCache(s.disableCache, e.found, t, c) && k == CacheKey(s.prefix, c, st)
  }

  /** No key is removed, and every key added or changed belongs to a block
      that can be cached. */
  ghost predicate WritesOnlyCacheable(s: Settings, e: TemplateEngine, t: Tables, m: map<string, string>, r: map<string, string>)
    requires Valid(t)
  {
    && (forall k :: k in m ==> k in r)
    && (forall k :: k in r && (k !in m || r[k] != m[k]) ==> CacheableKey(s, e, t, k))
  }

  /** What each bulk operation may do: get-or-set only adds entries for
      cacheable blocks, set only writes entries of cacheable blocks, delete
      only removes entries. */
  ghost predicate Effect(s: Settings, e: TemplateEngine, t: Tables, op: Op, m: map<string, string>, r: map<string, string>)
    requires Valid(t)
  {
    match op
    case GetOrSetOp => Extends(m, r) && WritesOnlyCacheable(s, e, t, m, r)
    case SetOp(_) => WritesOnlyCacheable(s, e, t, m, r)
    case DeleteOp => r.Keys <= m.Keys && forall k :: k in r ==> r[k] == m[k]
  }

  lemma EffectTrans(s: Settings, e: TemplateEngine, t: Tables, op: Op,
                    m1: map<string, string>, m2: map<string, string>, m3: map<string, string>)
    requires Valid(t) && Effect(s, e, t, op, m1, m2) && Effect(s, e, t, op, m2, m3)
    ensures Effect(s, e, t, op, m1, m3)
  {
    if !op.DeleteOp? {
      forall k | k in m3 && (k !in m1 || m3[k] != m1[k]) ensures CacheableKey(s, e, t, k) {
        if k in m2 && (k !in m1 || m2[k] != m1[k]) {
        } else {
          assert k !in m2 || m3[k] != m2[k];
        }
      }
    }
  }

  lemma {:induction false} SitesFoldEffect(s: Settings, e: TemplateEngine, t: Tables, op: Op,
                                           m: map<string, string>, b: nat, sites: seq<Option<nat>>)
    requires Valid(t) && b in t.blocks
    requires op.GetOrSetOp? ==> CanCache(s.disableCache, e.found, t, b)
    ensures Effect(s, e, t, op, m, SitesFold(s, e, t, op, m, b, sites))
  {
    if |sites| > 0 {
      var front := sites[..|sites| - 1];
      var st := sites[|sites| - 1];
      SitesFoldEffect(s, e, t, op, m, b, front);
      var m1 := SitesFold(s, e, t, op, m, b, front);
      SiteStepEffect(s, e, t, op, m1, b, st);
      EffectTrans(s, e, t, op, m, m1, SiteStep(s, e, t, op, m1, b, st));
    }
  }

  /** One site of the loop. */
  lemma SiteStepEffect(s: Settings, e: TemplateEngine, t: Tables, op: Op,
                       m: map<string, string>, b: nat, st: Option<nat>)
    requires Valid(t) && b in t.blocks
    requires op.GetOrSetOp? ==> CanCache(s.disableCache, e.found, t, b)
    ensures Effect(s, e, t, op, m, SiteStep(s, e, t, op, m, b, st))
  {
    assert EffectiveSite(None, st) == st;
    if CanCache(s.disableCache, e.found, t, b) {
      assert CacheableKey(s, e, t, CacheKey(s.prefix, b, st));
    }
  }

  lemma {:induction false} BlocksFoldEffect(s: Settings, e: TemplateEngine, t: Tables, op: Op,
                                            m: map<string, string>, cbs: seq<nat>, sites: seq<Option<nat>>)
    requires Valid(t) && forall c :: c in cbs ==> c in t.blocks
    ensures Effect(s, e, t, op, m, BlocksFold(s, e, t, op, m, cbs, sites))
  {
    if |cbs| == 0 {
    } else {
      var front := cbs[..|cbs| - 1];
      var c := cbs[|cbs| - 1];
      BlocksFoldEffect(s, e, t, op, m, front, sites);
      var m1 := BlocksFold(s, e, t, op, m, front, sites);
      if !(op.GetOrSetOp? && !CanCache(s.disableCache, e.found, t, c)) {
        SitesFoldEffect(s, e, t, op, m1, c, sites);
        EffectTrans(s, e, t, op, m, m1, BlockStep(s, e, t, op, m1, c, sites));
      }
    }
  }

  lemma {:induction false} ParentsFoldEffect(s: Settings, e: TemplateEngine, t: Tables, op: Op,
                                             m: map<string, string>, ps: seq<nat>)
    requires Valid(t) && forall p :: p in ps ==> p in t.parents
    ensures Effect(s, e, t, op, m, ParentsFold(s, e, t, op, m, ps))
  {
    if |ps| > 0 {
      var front := ps[..|ps| - 1];
      var p := ps[|ps| - 1];
      ParentsFoldEffect(s, e, t, op, m, front);
      var m1 := ParentsFold(s, e, t, op, m, front);
      BlocksFoldEffect(s, e, t, op, m1, ParentTargets(t, op, p), ParentSites(t.parents[p].sitesField));
      EffectTrans(s, e, t, op, m, m1, ParentStep(s, e, t, op, m1, p));
    }
  }

  lemma {:induction false} ModelsFoldEffect(s: Settings, e: TemplateEngine, t: Tables, op: Op,
                                            m: map<string, string>, models: seq<ModelClass>)
    requires Valid(t)
    ensures Effect(s, e, t, op, m, ModelsFold(s, e, t, op, m, models))
  {
    if |models| > 0 {
      var front := models[..|models| - 1];
      ModelsFoldEffect(s, e, t, op, m, front);
      var m1 := ModelsFold(s, e, t, op, m, front);
      var ps := ParentsOfModel(t, models[|models| - 1].name);
      ParentsFoldEffect(s, e, t, op, m1, ps);
      EffectTrans(s, e, t, op, m, m1, ParentsFold(s, e, t, op, m1, ps));
    }
  }

  /** `get_or_set_cache_all` never overwrites and only adds keys of
      cacheable blocks; `set_cache_all` writes only keys of cacheable
      blocks; `delete_cache_all` only removes; with caching disabled the
      first two change nothing. */
  lemma AllFoldEffect(s: Settings, e: TemplateEngine, t: Tables, op: Op,
                      m: map<string, string>, registry: seq<ModelClass>, base: string)
    requires Valid(t)
    ensures Effect(s, e, t, op, m, AllFold(s, e, t, op, m, registry, base))
    ensures !op.DeleteOp? && s.disableCache ==> AllFold(s, e, t, op, m, registry, base) == m
  {
    ModelsFoldEffect(s, e, t, op, m, ParentModels(registry, base));
  }
}
