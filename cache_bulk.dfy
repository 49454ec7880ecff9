/** The looping CacheServices methods (per site, per parent model, for
    every parent model), each proved to leave the store as the matching fold
    of the Cache module, and the laws those folds obey. */
module CacheBulk {
  import opened Wrappers
  import opened Tables
  import opened Models
  import opened Filters
  import opened Render
  import opened Parents
  import opened Cache

  // ---------------------------------------------------------------------
  // Per site

  /** `get_or_set_cache_per_site`. */
  method GetOrSetCachePerSite(store: CacheStore, s: Settings, e: TemplateEngine, t: Tables,
                              b: nat, sites: seq<Option<nat>>)
    requires Valid(t) && b in t.blocks
    modifies store, e
    ensures store.entries == SitesFold(s, e, t, GetOrSetOp, old(store.entries), b, sites)
    ensures e.renders >= old(e.renders)
  {
    for i := 0 to |sites|
      invariant store.entries == SitesFold(s, e, t, GetOrSetOp, old(store.entries), b, sites[..i])
      invariant e.renders >= old(e.renders)
    {
      assert sites[..i + 1][..i] == sites[..i];
      var html := GetOrSetCache(store, s, e, t, b, None, sites[i]);
    }
    assert sites[..|sites|] == sites;
  }

  /** `set_cache_content_block`: render without a context, then
      `set_cache`. (The source also drops the memoised `context`; the model
      has no memo to drop.) */
  method SetCacheContentBlock(store: CacheStore, s: Settings, e: TemplateEngine, t: Tables,
                              b: nat, site: Option<nat>)
    requires Valid(t) && b in t.blocks
    modifies store, e
    ensures store.entries == SiteStep(s, e, t, SetOp(None), old(store.entries), b, site)
    ensures e.renders == old(e.renders) + (if CanRender(e.found, t, b) then 1 else 0)
  {
    var html := RenderHtml(e, t, b, None, site);
    SetCache(store, s, e, t, b, html, site);
  }

  /** `set_cache_per_site`. */
  method SetCachePerSite(store: CacheStore, s: Settings, e: TemplateEngine, t: Tables,
                         b: nat, sites: seq<Option<nat>>)
    requires Valid(t) && b in t.blocks
    modifies store, e
    ensures forall q :: store.entries == SitesFold(s, e, t, SetOp(q), old(store.entries), b, sites)
    ensures e.renders >= old(e.renders)
  {
    for i := 0 to |sites|
      invariant forall q :: store.entries == SitesFold(s, e, t, SetOp(q), old(store.entries), b, sites[..i])
      invariant e.renders >= old(e.renders)
    {
      assert sites[..i + 1][..i] == sites[..i];
      SetCacheContentBlock(store, s, e, t, b, sites[i]);
    }
    assert sites[..|sites|] == sites;
  }

  /** `delete_cache_per_site`. */
  method DeleteCachePerSite(store: CacheStore, s: Settings, e: TemplateEngine, t: Tables,
                            b: nat, sites: seq<Option<nat>>)
    requires Valid(t) && b in t.blocks
    modifies store
    ensures store.entries == SitesFold(s, e, t, DeleteOp, old(store.entries), b, sites)
  {
    for i := 0 to |sites|
      invariant store.entries == SitesFold(s, e, t, DeleteOp, old(store.entries), b, sites[..i])
    {
      assert sites[..i + 1][..i] == sites[..i];
      DeleteCache(store, s, b, sites[i]);
    }
    assert sites[..|sites|] == sites;
  }

  /** `set_cache_content_block_parent`: `set_cache_per_site` over the
      parent's sites. */
  method SetCacheContentBlockParent(store: CacheStore, s: Settings, e: TemplateEngine, t: Tables,
                                    b: nat, p: nat)
    requires Valid(t) && b in t.blocks && p in t.parents
    modifies store, e
    ensures store.entries ==
      SitesFold(s, e, t, SetOp(None), old(store.entries), b, ParentSites(t.parents[p].sitesField))
  {
    SetCachePerSite(store, s, e, t, b, ParentSites(t.parents[p].sitesField));
  }

  // ---------------------------------------------------------------------
  // Per parent model

  /** The inner loop of `get_or_set_cache_parent_model` over one row's
      blocks: blocks that cannot be cached are skipped early. */
  method GetOrSetCacheBlocks(store: CacheStore, s: Settings, e: TemplateEngine, t: Tables,
                             cbs: seq<nat>, sites: seq<Option<nat>>)
    requires Valid(t) && forall c :: c in cbs ==> c in t.blocks
    modifies store, e
    ensures store.entries == BlocksFold(s, e, t, GetOrSetOp, old(store.entries), cbs, sites)
  {
    for j := 0 to |cbs|
      invariant store.entries == BlocksFold(s, e, t, GetOrSetOp, old(store.entries), cbs[..j], sites)
    {
      assert cbs[..j + 1][..j] == cbs[..j];
      if CanCache(s.disableCache, e.found, t, cbs[j]) {
        GetOrSetCachePerSite(store, s, e, t, cbs[j], sites);
      }
    }
    assert cbs[..|cbs|] == cbs;
  }

  /** `get_or_set_cache_parent_model`. */
  method GetOrSetCacheParentModel(store: CacheStore, s: Settings, e: TemplateEngine, t: Tables,
                                  model: ModelClass)
    requires Valid(t)
    modifies store, e
    ensures store.entries == ParentsFold(s, e, t, GetOrSetOp, old(store.entries), ParentsOfModel(t, model.name))
  {
    var objs := ParentsOfModel(t, model.name);
    for i := 0 to |objs|
      invariant store.entries == ParentsFold(s, e, t, GetOrSetOp, old(store.entries), objs[..i])
    {
      assert objs[..i + 1][..i] == objs[..i];
      var obj := objs[i];
      var sites := ParentSites(t.parents[obj].sitesField);
      var cbs := Cacheable(t, Some(ParentBlocks(t, obj)));
      assert cbs == ParentTargets(t, GetOrSetOp, obj);
      GetOrSetCacheBlocks(store, s, e, t, cbs, sites);
    }
    assert objs[..|objs|] == objs;
  }

  /** The inner loop of `set_cache_parent_model`. */
  method SetCacheBlocks(store: CacheStore, s: Settings, e: TemplateEngine, t: Tables,
                        cbs: seq<nat>, sites: seq<Option<nat>>)
    requires Valid(t) && forall c :: c in cbs ==> c in t.blocks
    modifies store, e
    ensures forall q :: store.entries == BlocksFold(s, e, t, SetOp(q), old(store.entries), cbs, sites)
  {
    for j := 0 to |cbs|
      invariant forall q :: store.entries == BlocksFold(s, e, t, SetOp(q), old(store.entries), cbs[..j], sites)
    {
      assert cbs[..j + 1][..j] == cbs[..j];
      SetCachePerSite(store, s, e, t, cbs[j], sites);
    }
    assert cbs[..|cbs|] == cbs;
  }

  /** `set_cache_parent_model`. The queryset argument is re-filtered on
      every row, as in the source; because `cacheable` is idempotent the
      blocks visited are those of the first filtering. */
  method SetCacheParentModel(store: CacheStore, s: Settings, e: TemplateEngine, t: Tables,
                             model: ModelClass, queryset: Option<seq<nat>>)
    requires Valid(t)
    modifies store, e
    ensures store.entries ==
      ParentsFold(s, e, t, SetOp(queryset), old(store.entries), ParentsOfModel(t, model.name))
  {
    var objs := ParentsOfModel(t, model.name);
    var qs := queryset;
    for i := 0 to |objs|
      invariant store.entries == ParentsFold(s, e, t, SetOp(queryset), old(store.entries), objs[..i])
      invariant qs.Some? == queryset.Some?
      invariant qs.Some? ==> Cacheable(t, qs) == Cacheable(t, queryset)
    {
      assert objs[..i + 1][..i] == objs[..i];
      qs := SetCacheParentRow(store, s, e, t, objs[i], queryset, qs);
    }
    assert objs[..|objs|] == objs;
  }

  /** One row of `set_cache_parent_model`: the queryset is filtered again
      and the row's cacheable blocks in it are set on every site of the row. */
  method SetCacheParentRow(store: CacheStore, s: Settings, e: TemplateEngine, t: Tables,
                           obj: nat, queryset: Option<seq<nat>>, qs: Option<seq<nat>>)
    returns (qs': Option<seq<nat>>)
    requires Valid(t) && obj in t.parents
    requires qs.Some? == queryset.Some?
    requires qs.Some? ==> Cacheable(t, qs) == Cacheable(t, queryset)
    modifies store, e
    ensures store.entries == ParentStep(s, e, t, SetOp(queryset), old(store.entries), obj)
    ensures qs'.Some? == queryset.Some?
    ensures qs'.Some? ==> Cacheable(t, qs') == Cacheable(t, queryset)
  {
    qs' := qs;
    var sites := ParentSites(t.parents[obj].sitesField);
    var cbs := Cacheable(t, Some(ParentBlocks(t, obj)));
    if qs.Some? {
      CacheableIdempotent(t, qs);
      qs' := Some(Cacheable(t, qs));
      cbs := InQueryset(t, cbs, qs'.value);
    }
    assert cbs == ParentTargets(t, SetOp(queryset), obj);
    SetCacheBlocks(store, s, e, t, cbs, sites);
  }

  /** The inner loop of `delete_cache_parent_model`. */
  method DeleteCacheBlocks(store: CacheStore, s: Settings, e: TemplateEngine, t: Tables,
                           cbs: seq<nat>, sites: seq<Option<nat>>)
    requires Valid(t) && forall c :: c in cbs ==> c in t.blocks
    modifies store
    ensures store.entries == BlocksFold(s, e, t, DeleteOp, old(store.entries), cbs, sites)
  {
    for j := 0 to |cbs|
      invariant store.entries == BlocksFold(s, e, t, DeleteOp, old(store.entries), cbs[..j], sites)
    {
      assert cbs[..j + 1][..j] == cbs[..j];
      DeleteCachePerSite(store, s, e, t, cbs[j], sites);
    }
    assert cbs[..|cbs|] == cbs;
  }

  /** `delete_cache_parent_model`. */
  method DeleteCacheParentModel(store: CacheStore, s: Settings, e: TemplateEngine, t: Tables,
                                model: ModelClass)
    requires Valid(t)
    modifies store
    ensures store.entries == ParentsFold(s, e, t, DeleteOp, old(store.entries), ParentsOfModel(t, model.name))
  {
    var objs := ParentsOfModel(t, model.name);
    for i := 0 to |objs|
      invariant store.entries == ParentsFold(s, e, t, DeleteOp, old(store.entries), objs[..i])
    {
      assert objs[..i + 1][..i] == objs[..i];
      var obj := objs[i];
      var sites := ParentSites(t.parents[obj].sitesField);
      var cbs := Cacheable(t, Some(ParentBlocks(t, obj)));
      assert cbs == ParentTargets(t, DeleteOp, obj);
      DeleteCacheBlocks(store, s, e, t, cbs, sites);
    }
    assert objs[..|objs|] == objs;
  }

  // ---------------------------------------------------------------------
  // Every parent model

  /** `get_or_set_cache_all`, over the models of `registry` that subclass
      `base`. */
  method GetOrSetCacheAll(store: CacheStore, s: Settings, e: TemplateEngine, t: Tables,
                          registry: seq<ModelClass>, base: string)
    requires Valid(t)
    modifies store, e
    ensures store.entries == AllFold(s, e, t, GetOrSetOp, old(store.entries), registry, base)
  {
    if s.disableCache {
      return;
    }
    var models := ParentModels(registry, base);
    for i := 0 to |models|
      invariant store.entries == ModelsFold(s, e, t, GetOrSetOp, old(store.entries), models[..i])
    {
      assert models[..i + 1][..i] == models[..i];
      GetOrSetCacheParentModel(store, s, e, t, models[i]);
    }
    assert models[..|models|] == models;
  }

  /** `set_cache_all`. */
  method SetCacheAll(store: CacheStore, s: Settings, e: TemplateEngine, t: Tables,
                     registry: seq<ModelClass>, base: string, queryset: Option<seq<nat>>)
    requires Valid(t)
    modifies store, e
    ensures store.entries == AllFold(s, e, t, SetOp(queryset), old(store.entries), registry, base)
  {
    if s.disableCache {
      return;
    }
    var models := ParentModels(registry, base);
    for i := 0 to |models|
      invariant store.entries == ModelsFold(s, e, t, SetOp(queryset), old(store.entries), models[..i])
    {
      assert models[..i + 1][..i] == models[..i];
      SetCacheParentModel(store, s, e, t, models[i], queryset);
    }
    assert models[..|models|] == models;
  }

  /** `delete_cache_all`: runs whether or not caching is disabled. */
  method DeleteCacheAll(store: CacheStore, s: Settings, e: TemplateEngine, t: Tables,
                        registry: seq<ModelClass>, base: string)
    requires Valid(t)
    modifies store
    ensures store.entries == AllFold(s, e, t, DeleteOp, old(store.entries), registry, base)
  {
    var models := ParentModels(registry, base);
    for i := 0 to |models|
      invariant store.entries == ModelsFold(s, e, t, DeleteOp, old(store.entries), models[..i])
    {
      assert models[..i + 1][..i] == models[..i];
      DeleteCacheParentModel(store, s, e, t, models[i]);
    }
    assert models[..|models|] == models;
  }
}
