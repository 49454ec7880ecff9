/** CacheServices: cache keys, the key/value store, and the get, set,
    delete and get-or-set operations for one block, one block on many sites,
    the blocks of every row of a parent model, and every parent model. */
module Cache {
  import opened Wrappers
  import opened Decimal
  import opened Tables
  import opened Models
  import opened Filters
  import opened Render
  import opened Parents

  /** The settings the cache services read: CONTENT_BLOCKS_DISABLE_CACHE and
      CONTENT_BLOCKS_CACHE_PREFIX. */
  datatype Settings = Settings(disableCache: bool, prefix: string)

  // ---------------------------------------------------------------------
  // Keys

  /** The part after the block id: "_site_" and the site id when a site is
      given (None has no `id`, so nothing is appended). */
  function SiteSuffix(site: Option<nat>): string {
    if site.Some? then "_site_" + NatToString(site.value) else ""
  }

  /** `cache_key`. */
  function CacheKey(prefix: string, b: nat, site: Option<nat>): (k: string)
    ensures |k| > |prefix| && k[..|prefix|] == prefix && k[|prefix|] == '_'
    ensures k[|prefix| + 1..] == NatToString(b) + SiteSuffix(site)
  {
    prefix + "_" + NatToString(b) + SiteSuffix(site)
  }

  /** The length of the run of digits a string starts with. */
  function LeadingDigits(s: string): (n: nat)
    ensures n <= |s|
  {
    if s == [] || !IsDigit(s[0]) then 0 else 1 + LeadingDigits(s[1..])
  }

  /** A digit string followed by nothing or by a non-digit starts with a run
      of exactly its own length. */
  lemma {:induction false} LeadingDigitsOf(d: string, x: string)
    requires AllDigits(d)
    requires x == [] || !IsDigit(x[0])
    ensures LeadingDigits(d + x) == |d|
  {
    if d == [] {
      assert d + x == x;
    } else {
      assert (d + x)[1..] == d[1..] + x;
      LeadingDigitsOf(d[1..], x);
    }
  }

  /** Two digit strings, each followed by nothing or by a non-digit, can only
      be concatenated into the same string in one way. */
  lemma DigitsThenSeparator(d1: string, x1: string, d2: string, x2: string)
    requires AllDigits(d1) && AllDigits(d2)
    requires x1 == [] || !IsDigit(x1[0])
    requires x2 == [] || !IsDigit(x2[0])
    requires d1 + x1 == d2 + x2
    ensures d1 == d2 && x1 == x2
  {
    LeadingDigitsOf(d1, x1);
    LeadingDigitsOf(d2, x2);
    assert d1 == (d1 + x1)[..|d1|] && d2 == (d2 + x2)[..|d2|];
    assert x1 == (d1 + x1)[|d1|..] && x2 == (d2 + x2)[|d2|..];
  }

  /** Distinct (block id, optional site id) pairs give distinct keys. */
  lemma CacheKeyInjective(prefix: string, b1: nat, s1: Option<nat>, b2: nat, s2: Option<nat>)
    requires CacheKey(prefix, b1, s1) == CacheKey(prefix, b2, s2)
    ensures b1 == b2 && s1 == s2
  {
    var k := CacheKey(prefix, b1, s1);
    assert NatToString(b1) + SiteSuffix(s1) == NatToString(b2) + SiteSuffix(s2) == k[|prefix| + 1..];
    DigitsThenSeparator(NatToString(b1), SiteSuffix(s1), NatToString(b2), SiteSuffix(s2));
    NatToStringInjective(b1, b2);
    if s1.Some? && s2.Some? {
      var t1 := NatToString(s1.value);
      var t2 := NatToString(s2.value);
      assert t1 == SiteSuffix(s1)[6..] && t2 == SiteSuffix(s2)[6..];
      NatToStringInjective(s1.value, s2.value);
    }
  }

  // ---------------------------------------------------------------------
  // The store

  /** The cache backend: a missing key reads as None, and only None is a
      miss (a stored "" is a hit). */
  class CacheStore {
    var entries: map<string, string>

    constructor()
      ensures entries == map[]
    {
      entries := map[];
    }

    function Get(key: string): (r: Option<string>)
      reads this
      ensures r.Some? <==> key in entries
      ensures r.Some? ==> r.value == entries[key]
    {
      if key in entries then Some(entries[key]) else None
    }

    method Set(key: string, value: string)
      modifies this
      ensures entries == old(entries)[key := value]
    {
      entries := entries[key := value];
    }

    method Delete(key: string)
      modifies this
      ensures entries == old(entries) - {key}
    {
      entries := entries - {key};
    }
  }

  // ---------------------------------------------------------------------
  // One block, one site

  /** The store after `set_cache(b, html, site)`. */
  function AfterSet(s: Settings, e: TemplateEngine, t: Tables, m: map<string, string>,
                    b: nat, html: string, site: Option<nat>): map<string, string>
    requires Valid(t) && b in t.blocks
  {
    if CanCache(s.disableCache, e.found, t, b) then m[CacheKey(s.prefix, b, site) := html] else m
  }

  /** `set_cache` writes exactly the block's key for the site when the block
      can be cached, and nothing otherwise. */
  lemma SetCacheWritesOneKey(s: Settings, e: TemplateEngine, t: Tables, m: map<string, string>,
                             b: nat, html: string, site: Option<nat>)
    requires Valid(t) && b in t.blocks
    ensures var r := AfterSet(s, e, t, m, b, html, site); var key := CacheKey(s.prefix, b, site);
      && (CanCache(s.disableCache, e.found, t, b) ==> key in r && r[key] == html)
      && (!CanCache(s.disableCache, e.found, t, b) ==> r == m)
      && (forall k :: k != key ==> (k in r <==> k in m) && (k in r ==> r[k] == m[k]))
  {
  }

  /** `delete_cache` removes exactly the block's key for the site, whether
      or not the block can be cached. */
  lemma DeleteCacheRemovesOneKey(prefix: string, m: map<string, string>, b: nat, site: Option<nat>)
    ensures var r := m - {CacheKey(prefix, b, site)};
      && CacheKey(prefix, b, site) !in r
      && (forall k :: k != CacheKey(prefix, b, site) ==> (k in r <==> k in m) && (k in r ==> r[k] == m[k]))
  {
  }

  /** `set_cache`. */
  method SetCache(store: CacheStore, s: Settings, e: TemplateEngine, t: Tables,
                  b: nat, html: string, site: Option<nat>)
    requires Valid(t) && b in t.blocks
    modifies store
    ensures store.entries == AfterSet(s, e, t, old(store.entries), b, html, site)
  {
    if !CanCache(s.disableCache, e.found, t, b) {
      return;
    }
    store.Set(CacheKey(s.prefix, b, site), html);
  }

  /** `delete_cache`. */
  method DeleteCache(store: CacheStore, s: Settings, b: nat, site: Option<nat>)
    modifies store
    ensures store.entries == old(store.entries) - {CacheKey(s.prefix, b, site)}
  {
    store.Delete(CacheKey(s.prefix, b, site));
  }

  /** `get_cache`. */
  function GetCache(store: CacheStore, s: Settings, b: nat, site: Option<nat>): Option<string>
    reads store
  {
    store.Get(CacheKey(s.prefix, b, site))
  }

  /** The result of a get-or-set: the HTML returned and the new store. */
  datatype Lookup = Lookup(html: string, entries: map<string, string>)

  /** The site `get_or_set_cache` works with: the one given, else the one
      the context names. */
  function EffectiveSite(ctx: Option<Ctx>, site: Option<nat>): Option<nat> {
    if site.Some? then site else SiteOf(ctx)
  }

  /** `get_or_set_cache`: a hit returns the stored HTML and leaves the store
      alone; a miss renders, returns the HTML and stores it only when the
      block can be cached. */
  function GetOrSet(s: Settings, e: TemplateEngine, t: Tables, m: map<string, string>,
                    b: nat, ctx: Option<Ctx>, site: Option<nat>): (r: Lookup)
    requires Valid(t) && b in t.blocks
    ensures var key := CacheKey(s.prefix, b, EffectiveSite(ctx, site));
      && (key in m ==> r == Lookup(m[key], m))
      && (key !in m ==> r.html == HtmlOf(e.found, e.render, t, b, ctx, EffectiveSite(ctx, site)))
      && (key !in m && CanCache(s.disableCache, e.found, t, b) ==> r.entries == m[key := r.html])
      && (key !in m && !CanCache(s.disableCache, e.found, t, b) ==> r.entries == m)
  {
    var st := EffectiveSite(ctx, site);
    var key := CacheKey(s.prefix, b, st);
    if key in m then Lookup(m[key], m)
    else
      var html := HtmlOf(e.found, e.render, t, b, ctx, st);
      Lookup(html, AfterSet(s, e, t, m, b, html, st))
  }

  /** `get_or_set_cache`: on a hit nothing is rendered; on a miss the block
      is rendered once (when it can be rendered at all). */
  method GetOrSetCache(store: CacheStore, s: Settings, e: TemplateEngine, t: Tables,
                       b: nat, ctx: Option<Ctx>, site: Option<nat>) returns (html: string)
    requires Valid(t) && b in t.blocks
    modifies store, e
    ensures Lookup(html, store.entries) == GetOrSet(s, e, t, old(store.entries), b, ctx, site)
    ensures CacheKey(s.prefix, b, EffectiveSite(ctx, site)) in old(store.entries) ==>
      e.renders == old(e.renders)
    ensures CacheKey(s.prefix, b, EffectiveSite(ctx, site)) !in old(store.entries) ==>
      e.renders == old(e.renders) + (if CanRender(e.found, t, b) then 1 else 0)
  {
    var st := if site.Some? then site else SiteOf(ctx);
    var cached := GetCache(store, s, b, st);
    if cached.None? {
      html := RenderHtml(e, t, b, ctx, st);
      SetCache(store, s, e, t, b, html, st);
    } else {
      html := cached.value;
    }
  }

  /** `RenderServices.render_content_block`: blocks that can be cached go
      through the cache, the others are rendered every time. */
  method RenderContentBlock(store: CacheStore, s: Settings, e: TemplateEngine, t: Tables,
                            b: nat, ctx: Option<Ctx>) returns (html: string)
    requires Valid(t) && b in t.blocks
    modifies store, e
    ensures CanCache(s.disableCache, e.found, t, b) ==>
      Lookup(html, store.entries) == GetOrSet(s, e, t, old(store.entries), b, ctx, None)
    ensures !CanCache(s.disableCache, e.found, t, b) ==>
      html == HtmlOf(e.found, e.render, t, b, ctx, None) && store.entries == old(store.entries)
  {
    if CanCache(s.disableCache, e.found, t, b) {
      html := GetOrSetCache(store, s, e, t, b, ctx, None);
    } else {
      html := RenderHtml(e, t, b, ctx, None);
    }
  }

  // ---------------------------------------------------------------------
  // Many sites, many blocks, many parents, many models

  /** The three bulk operations; `queryset` is `set_cache_parent_model`'s
      optional limit. */
  datatype Op = GetOrSetOp | SetOp(queryset: Option<seq<nat>>) | DeleteOp

  /** One site of a per-site loop: `get_or_set_cache(b, site=site)`,
      `set_cache_content_block(b, site=site)` or `delete_cache(b, site=site)`. */
  function SiteStep(s: Settings, e: TemplateEngine, t: Tables, op: Op,
                    m: map<string, string>, b: nat, site: Option<nat>): map<string, string>
    requires Valid(t) && b in t.blocks
  {
    match op
    case GetOrSetOp => GetOrSet(s, e, t, m, b, None, site).entries
    case SetOp(_) => AfterSet(s, e, t, m, b, HtmlOf(e.found, e.render, t, b, None, site), site)
    case DeleteOp => m - {CacheKey(s.prefix, b, site)}
  }

  /** `*_per_site(b, sites)`. */
  function SitesFold(s: Settings, e: TemplateEngine, t: Tables, op: Op,
                     m: map<string, string>, b: nat, sites: seq<Option<nat>>): map<string, string>
    requires Valid(t) && b in t.blocks
  {
    if |sites| == 0 then m
    else SiteStep(s, e, t, op, SitesFold(s, e, t, op, m, b, sites[..|sites| - 1]), b, sites[|sites| - 1])
  }

  /** One block of a parent's loop; get-or-set skips blocks that cannot be
      cached. */
  function BlockStep(s: Settings, e: TemplateEngine, t: Tables, op: Op,
                     m: map<string, string>, b: nat, sites: seq<Option<nat>>): map<string, string>
    requires Valid(t) && b in t.blocks
  {
    if op.GetOrSetOp? && !CanCache(s.disableCache, e.found, t, b) then m
    else SitesFold(s, e, t, op, m, b, sites)
  }

  function BlocksFold(s: Settings, e: TemplateEngine, t: Tables, op: Op,
                      m: map<string, string>, cbs: seq<nat>, sites: seq<Option<nat>>): map<string, string>
    requires Valid(t) && forall c :: c in cbs ==> c in t.blocks
  {
    if |cbs| == 0 then m
    else BlockStep(s, e, t, op, BlocksFold(s, e, t, op, m, cbs[..|cbs| - 1], sites), cbs[|cbs| - 1], sites)
  }

  /** The blocks of parent row `p` a bulk operation visits: its cacheable
      blocks, limited to the cacheable part of the queryset when one is
      given. */
  function ParentTargets(t: Tables, op: Op, p: nat): (r: seq<nat>)
    requires Valid(t) && p in t.parents
    ensures forall c :: c in r ==> c in t.blocks
  {
    var cbs := Cacheable(t, Some(ParentBlocks(t, p)));
    if op.SetOp? && op.queryset.Some? then InQueryset(t, cbs, Cacheable(t, op.queryset)) else cbs
  }

  /** One parent row: its site list and its targets. */
  function ParentStep(s: Settings, e: TemplateEngine, t: Tables, op: Op,
                      m: map<string, string>, p: nat): map<string, string>
    requires Valid(t) && p in t.parents
  {
    BlocksFold(s, e, t, op, m, ParentTargets(t, op, p), ParentSites(t.parents[p].sitesField))
  }

  /** `*_parent_model(model)` over the rows `ps` of the model. */
  function ParentsFold(s: Settings, e: TemplateEngine, t: Tables, op: Op,
                       m: map<string, string>, ps: seq<nat>): map<string, string>
    requires Valid(t) && forall p :: p in ps ==> p in t.parents
  {
    if |ps| == 0 then m
    else ParentStep(s, e, t, op, ParentsFold(s, e, t, op, m, ps[..|ps| - 1]), ps[|ps| - 1])
  }

  /** The loop of `*_all` over the parent models. */
  function ModelsFold(s: Settings, e: TemplateEngine, t: Tables, op: Op,
                      m: map<string, string>, models: seq<ModelClass>): map<string, string>
    requires Valid(t)
  {
    if |models| == 0 then m
    else ParentsFold(s, e, t, op, ModelsFold(s, e, t, op, m, models[..|models| - 1]),
                     ParentsOfModel(t, models[|models| - 1].name))
  }

  /** `*_all`: the registry's subclasses of `base`; get-or-set and set do
      nothing when caching is disabled, delete runs regardless. */
  function AllFold(s: Settings, e: TemplateEngine, t: Tables, op: Op,
                   m: map<string, string>, registry: seq<ModelClass>, base: string): map<string, string>
    requires Valid(t)
  {
    if !op.DeleteOp? && s.disableCache then m
    else ModelsFold(s, e, t, op, m, ParentModels(registry, base))
  }

  /** The `*_all` services as written. `get_or_set_cache_all` and
      `set_cache_all` first return when caching is disabled; every path past
      that calls `ParentServices.parent_models()` with no argument, although
      the method takes one, so Python raises `TypeError` before the store is
      touched. `delete_cache_all` has no early return. */
  function AllAsWritten(s: Settings, op: Op, m: map<string, string>): (r: Result<map<string, string>>)
    ensures r.Ok? <==> !op.DeleteOp? && s.disableCache
    ensures r.Ok? ==> r.value == m
    ensures r.Err? ==> r.error == TypeError
  {
    if !op.DeleteOp? && s.disableCache then Ok(m) else Err(TypeError)
  }

  /** Whenever the written `*_all` call reaches the loop it raises
      `TypeError` and changes no key, while the repaired call (`AllFold`,
      with the registry passed in) runs the loop over the registered parent
      models. What that loop does to each key is proved in `CacheCover`
      (`AllFoldDeletes`, `AllFoldFills`, `AllFoldRefreshes`). */
  lemma AllAsWrittenRaises(s: Settings, e: TemplateEngine, t: Tables, op: Op,
                           m: map<string, string>, registry: seq<ModelClass>, base: string)
    requires Valid(t)
    requires !s.disableCache || op.DeleteOp?
    ensures AllAsWritten(s, op, m) == Err(TypeError)
    ensures AllFold(s, e, t, op, m, registry, base) == ModelsFold(s, e, t, op, m, ParentModels(registry, base))
  {
  }
}
