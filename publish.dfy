/** PublishContentBlocksForm.save: the publish copy of forms_copy.dfy,
    interleaved with the optional pre-render of each new published block
    into the cache. */
module FormPublish {
  import opened Wrappers
  import opened Tables
  import opened Growth
  import opened Models
  import opened Render
  import opened Cache
  import opened Clone
  import opened FormSaves
  import opened FormCopies

  /** The sites pre-rendered for: every site when the sites framework is
      installed, otherwise the single site `None`. */
  function PreRenderSites(installed: bool, sites: seq<nat>): (r: seq<Option<nat>>)
    ensures |r| > 0 <==> !installed || |sites| > 0
    ensures installed ==> |r| == |sites| && forall i :: 0 <= i < |r| ==> r[i] == Some(sites[i])
  {
    if installed then seq(|sites|, i requires 0 <= i < |sites| => Some(sites[i])) else [None]
  }

  /** The context each pre-render passes: a cache timeout and a site. */
  function PreRenderContext(timeout: int, site: Option<nat>): Ctx {
    map["cache_timeout" := IntValue(timeout),
        "site" := if site.Some? then SiteValue(site.value) else NoneValue]
  }

  /** The site a pre-render caches under is never the one its context
      names: `RenderServices.site` reads only the context's request, and
      the pre-render context has none, so every site's render goes to the
      same site-less key. */
  lemma PreRenderContextSite(timeout: int, site: Option<nat>)
    ensures EffectiveSite(Some(PreRenderContext(timeout, site)), None) == None
  {
    assert RequestKey !in PreRenderContext(timeout, site);
    SiteOfCases(Some(PreRenderContext(timeout, site)));
  }

  /** `m1` agrees with `m0` outside `keys`. */
  ghost predicate UnchangedOff(m0: map<string, string>, m1: map<string, string>, keys: set<string>) {
    forall k :: k !in keys ==> (k in m1 <==> k in m0) && (k in m0 ==> m1[k] == m0[k])
  }

  /** Every entry of `m0` is in `m1` with the same value. */
  ghost predicate MapGrows(m0: map<string, string>, m1: map<string, string>) {
    forall k :: k in m0 ==> k in m1 && m1[k] == m0[k]
  }

  /** The site-less cache keys of some blocks. */
  function SitelessKeys(prefix: string, ids: seq<nat>): (r: set<string>)
    ensures forall b :: b in ids ==> CacheKey(prefix, b, None) in r
  {
    set b | b in ids :: CacheKey(prefix, b, None)
  }

  /** One block's pre-render, `for site in sites: render_content_block(...)`:
      the first site's render is cached under the block's site-less key
      (when the block can be cached and the key is not cached yet) and
      every later site finds it there. */
  method PreRenderBlock(store: CacheStore, s: Settings, e: TemplateEngine, t: Tables, b: nat,
                        timeout: int, sites: seq<Option<nat>>)
    requires Valid(t) && b in t.blocks
    modifies store, e
    ensures var key := CacheKey(s.prefix, b, None);
      && (key in old(store.entries) ==> store.entries == old(store.entries))
      && (key !in old(store.entries) && |sites| > 0 && CanCache(s.disableCache, e.found, t, b) ==>
            store.entries == old(store.entries)[key :=
              HtmlOf(e.found, e.render, t, b, Some(PreRenderContext(timeout, sites[0])), None)])
      && (key !in old(store.entries) && (|sites| == 0 || !CanCache(s.disableCache, e.found, t, b)) ==>
            store.entries == old(store.entries))
    ensures UnchangedOff(old(store.entries), store.entries, {CacheKey(s.prefix, b, None)})
    ensures MapGrows(old(store.entries), store.entries)
    ensures |sites| > 0 && CanCache(s.disableCache, e.found, t, b) ==> CacheKey(s.prefix, b, None) in store.entries
  {
    ghost var m0 := store.entries;
    ghost var key := CacheKey(s.prefix, b, None);
    for j := 0 to |sites|
      invariant key in m0 ==> store.entries == m0
      invariant key !in m0 && 0 < j && CanCache(s.disableCache, e.found, t, b) ==>
        store.entries == m0[key := HtmlOf(e.found, e.render, t, b, Some(PreRenderContext(timeout, sites[0])), None)]
      invariant key !in m0 && (j == 0 || !CanCache(s.disableCache, e.found, t, b)) ==> store.entries == m0
    {
      PreRenderContextSite(timeout, sites[j]);
      var _ := RenderContentBlock(store, s, e, t, b, Some(PreRenderContext(timeout, sites[j])));
    }
  }

  /** Every new block that can be cached has its site-less key in `m`. */
  ghost predicate AllPreRendered(s: Settings, found: string -> bool, t: Tables, ids: seq<nat>,
                                 m: map<string, string>) {
    && Valid(t)
    && (forall i :: 0 <= i < |ids| ==> ids[i] in t.blocks)
    && (forall i :: 0 <= i < |ids| ==>
          CanCache(s.disableCache, found, t, ids[i]) ==> CacheKey(s.prefix, ids[i], None) in m)
  }

  lemma AllPreRenderedStep(s: Settings, found: string -> bool, t1: Tables, t2: Tables, ids: seq<nat>,
                           nb: nat, m1: map<string, string>, m2: map<string, string>)
    requires AllPreRendered(s, found, t1, ids, m1)
    requires Valid(t2) && KeepsBlocks(t1, t2) && t2.templates == t1.templates && nb in t2.blocks
    requires MapGrows(m1, m2)
    requires CanCache(s.disableCache, found, t2, nb) ==> CacheKey(s.prefix, nb, None) in m2
    ensures AllPreRendered(s, found, t2, ids + [nb], m2)
  {
  }

  lemma UnchangedOffStep(m0: map<string, string>, m1: map<string, string>, m2: map<string, string>,
                         prefix: string, ids: seq<nat>, nb: nat)
    requires UnchangedOff(m0, m1, SitelessKeys(prefix, ids))
    requires UnchangedOff(m1, m2, {CacheKey(prefix, nb, None)})
    ensures UnchangedOff(m0, m2, SitelessKeys(prefix, ids + [nb]))
  {
    assert SitelessKeys(prefix, ids + [nb]) == SitelessKeys(prefix, ids) + {CacheKey(prefix, nb, None)};
  }

  /** `PublishContentBlocksForm.save`: the rows are those of publishing, the
      cache changes only at the site-less keys of the new blocks, no
      earlier entry is overwritten, and with pre-rendering on (and some
      site to render for) every new block that can be cached is cached. */
  method SavePublishContentBlocksForm(store: CacheStore, s: Settings, e: TemplateEngine,
                                      preRender: bool, timeout: int, installed: bool, allSites: seq<nat>,
                                      t: Tables, p: nat) returns (r: Copied)
    requires Valid(t) && p in t.parents
    modifies store, e
    ensures r == PublishRows(t, p)
    ensures UnchangedOff(old(store.entries), store.entries, SitelessKeys(s.prefix, r.ids))
    ensures MapGrows(old(store.entries), store.entries)
    ensures !preRender || |PreRenderSites(installed, allSites)| == 0 ==> store.entries == old(store.entries)
    ensures preRender && |PreRenderSites(installed, allSites)| > 0 ==>
      AllPreRendered(s, e.found, r.t, r.ids, store.entries)
  {
    var sites := PreRenderSites(installed, allSites);
    var dead := Dead(t, p, PublishedRow);
    DeletePreservesValid(t, dead, {});
    var d := Delete(t, dead, {});
    var qs := Where(d, ParentBlocks(d, p), DraftRow);
    assert Source(t, p, PublishedRow, p, DraftRow) == qs;
    r := PublishLoop(store, s, e, preRender, timeout, sites, d, p, qs);
  }

  /** The publish loop over the drafts, as the queryset read after the
      delete. */
  method PublishLoop(store: CacheStore, s: Settings, e: TemplateEngine, preRender: bool, timeout: int,
                     sites: seq<Option<nat>>, d: Tables, p: nat, qs: seq<nat>) returns (r: Copied)
    requires Valid(d) && p in d.parents
    requires forall c :: c in qs ==> c in d.blocks
    modifies store, e
    ensures r == CloneEach(d, p, qs, Attrs(Some(false), None))
    ensures UnchangedOff(old(store.entries), store.entries, SitelessKeys(s.prefix, r.ids))
    ensures MapGrows(old(store.entries), store.entries)
    ensures !preRender || |sites| == 0 ==> store.entries == old(store.entries)
    ensures preRender && |sites| > 0 ==> AllPreRendered(s, e.found, r.t, r.ids, store.entries)
  {
    var a := Attrs(Some(false), None);
    ghost var m0 := store.entries;
    r := Copied(d, []);
    for i := 0 to |qs|
      invariant r == CloneEach(d, p, qs[..i], a)
      invariant CacheAccount(s, e.found, preRender, sites, m0, store.entries, r.t, r.ids)
    {
      CloneEachSnoc(d, p, qs, i, a);
      var nt, nb := CloneContentBlock(r.t, qs[i], a);
      var next := Copied(AddToParent(nt, p, nb), r.ids + [nb]);
      PreRenderNew(store, s, e, preRender, timeout, sites, r, next, nb, m0);
      r := next;
    }
    assert qs[..|qs|] == qs;
  }

  /** The loop's account of the cache after pre-rendering the blocks
      `ids`: only their site-less keys changed, nothing was overwritten,
      and with pre-rendering on each of them that can be cached is. */
  ghost predicate CacheAccount(s: Settings, found: string -> bool, preRender: bool, sites: seq<Option<nat>>,
                               m0: map<string, string>, m: map<string, string>, t: Tables, ids: seq<nat>) {
    && UnchangedOff(m0, m, SitelessKeys(s.prefix, ids))
    && MapGrows(m0, m)
    && (!preRender || |sites| == 0 ==> m == m0)
    && (preRender && |sites| > 0 ==> AllPreRendered(s, found, t, ids, m))
  }

  /** The pre-render of the block one loop step added, keeping the loop's
      account of the cache. */
  method PreRenderNew(store: CacheStore, s: Settings, e: TemplateEngine, preRender: bool, timeout: int,
                      sites: seq<Option<nat>>, r: Copied, next: Copied, nb: nat, ghost m0: map<string, string>)
    requires Valid(next.t) && KeepsBlocks(r.t, next.t) && next.t.templates == r.t.templates
    requires nb in next.t.blocks && next.ids == r.ids + [nb]
    requires CacheAccount(s, e.found, preRender, sites, m0, store.entries, r.t, r.ids)
    modifies store, e
    ensures CacheAccount(s, e.found, preRender, sites, m0, store.entries, next.t, next.ids)
  {
    ghost var m1 := store.entries;
    if preRender {
      PreRenderBlock(store, s, e, next.t, nb, timeout, sites);
    }
    UnchangedOffStep(m0, m1, store.entries, s.prefix, r.ids, nb);
    if preRender && |sites| > 0 {
      AllPreRenderedStep(s, e.found, r.t, next.t, r.ids, nb, m1, store.entries);
    }
  }

  /** Publishing never writes a site-specific key: the per-site loop
      always lands on the site-less key. */
  lemma PublishLeavesSiteKeys(prefix: string, m0: map<string, string>, m1: map<string, string>,
                              ids: seq<nat>, b: nat, site: nat)
    requires UnchangedOff(m0, m1, SitelessKeys(prefix, ids))
    ensures CacheKey(prefix, b, Some(site)) in m1 <==> CacheKey(prefix, b, Some(site)) in m0
    ensures CacheKey(prefix, b, Some(site)) in m0 ==> m1[CacheKey(prefix, b, Some(site))] == m0[CacheKey(prefix, b, Some(site))]
  {
    if CacheKey(prefix, b, Some(site)) in SitelessKeys(prefix, ids) {
      var c :| c in ids && CacheKey(prefix, c, None) == CacheKey(prefix, b, Some(site));
      CacheKeyInjective(prefix, c, None, b, Some(site));
    }
  }
}
