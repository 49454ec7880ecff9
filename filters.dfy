/** ContentBlockFilters: the queryset filters the cache services use to
    choose which blocks to render into the cache. */
module Filters {
  import opened Wrappers
  import opened Tables
  import opened Models

  /** A queryset argument that defaults to every block. */
  function QuerysetOrAll(t: Tables, q: Option<seq<nat>>): seq<nat> {
    if q.None? then AllBlocks(t) else q.value
  }

  /** `renderable`: top-level blocks whose template has a filename. */
  function Renderable(t: Tables, q: Option<seq<nat>>): (r: seq<nat>)
    ensures forall c :: c in r <==>
      && c in QuerysetOrAll(t, q) && c in t.blocks && t.blocks[c].parent.None?
      && !(t.blocks[c].template in t.templates && t.templates[t.blocks[c].template].templateFilename == "")
  {
    Where(t, QuerysetOrAll(t, q), TopLevelWithFile)
  }

  /** `cacheable`: the published blocks of the queryset, then `renderable`. */
  function Cacheable(t: Tables, q: Option<seq<nat>>): (r: seq<nat>)
    ensures forall c :: c in r <==>
      && c in QuerysetOrAll(t, q) && c in t.blocks && !t.blocks[c].draft && t.blocks[c].parent.None?
      && !(t.blocks[c].template in t.templates && t.templates[t.blocks[c].template].templateFilename == "")
  {
    Renderable(t, Some(Where(t, QuerysetOrAll(t, q), PublishedRow)))
  }

  /** `content_blocks_in_queryset`: the blocks of `cbs` whose id is in `qs`,
      in the order of `cbs`. */
  function InQueryset(t: Tables, cbs: seq<nat>, qs: seq<nat>): (r: seq<nat>)
    ensures forall c :: c in r <==> c in cbs && c in t.blocks && c in qs
    ensures |r| <= |cbs|
    ensures Increasing(cbs) ==> Increasing(r)
  {
    if |cbs| == 0 then []
    else
      var front := cbs[..|cbs| - 1];
      var c := cbs[|cbs| - 1];
      assert cbs == front + [c];
      var r0 := InQueryset(t, front, qs);
      if c in t.blocks && c in qs then
        assert Increasing(cbs) ==> forall i :: 0 <= i < |r0| ==> r0[i] < c by {
          if Increasing(cbs) {
            forall i | 0 <= i < |r0| ensures r0[i] < c {
              assert r0[i] in front;
              var j :| 0 <= j < |front| && front[j] == r0[i];
              assert cbs[j] == r0[i];
            }
          }
        }
        r0 + [c]
      else r0
  }

  /** Every block of the queryset that `can_cache` passes `cacheable`. */
  lemma CanCacheImpliesCacheable(disableCache: bool, found: string -> bool, t: Tables, qs: seq<nat>, c: nat)
    requires Valid(t) && c in qs && c in t.blocks && CanCache(disableCache, found, t, c)
    ensures c in Cacheable(t, Some(qs))
  {
  }

  /** Within the cacheable blocks `can_cache` still depends on the setting,
      the template's `no_cache` flag and the loader, which the filter does
      not look at. */
  lemma CacheableLeavesToCanCache(disableCache: bool, found: string -> bool, t: Tables, q: Option<seq<nat>>, c: nat)
    requires Valid(t) && c in Cacheable(t, q)
    ensures CanCache(disableCache, found, t, c) <==>
      && !disableCache && !t.templates[t.blocks[c].template].noCache
      && found(TemplateDir + t.templates[t.blocks[c].template].templateFilename)
  {
    assert c in t.blocks && !t.blocks[c].draft && t.blocks[c].parent.None?;
    CanCacheExactly(disableCache, found, t, c);
  }

  /** `cacheable` is idempotent, so filtering an already filtered queryset
      again gives the same queryset. */
  lemma CacheableIdempotent(t: Tables, q: Option<seq<nat>>)
    ensures Cacheable(t, Some(Cacheable(t, q))) == Cacheable(t, q)
  {
    var x := Cacheable(t, q);
    WhereAllPass(t, x, PublishedRow);
    WhereAllPass(t, x, TopLevelWithFile);
  }
}
