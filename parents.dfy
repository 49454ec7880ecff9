/** ParentServices: the site list of a parent row and the registry filter
    that finds the parent models. */
module Parents {
  import opened Wrappers
  import opened Tables

  /** `parent_sites`: the sites a parent's blocks are cached for. A missing
      attribute and None both give the one-element list holding None; a
      single non-iterable site is wrapped in a list; an iterable is returned
      as it is. */
  function ParentSites(f: SitesField): (r: seq<Option<nat>>)
    ensures (f.MissingAttribute? || f.NoSites?) ==> r == [None]
    ensures f.SingleSite? ==> r == [Some(f.site)]
    ensures f.SiteCollection? ==> |r| == |f.sites| && forall i :: 0 <= i < |r| ==> r[i] == Some(f.sites[i])
  {
    match f
    case MissingAttribute => [None]
    case NoSites => [None]
    case SingleSite(s) => [Some(s)]
    case SiteCollection(sites) => seq(|sites|, i requires 0 <= i < |sites| => Some(sites[i]))
  }

  /** Outside the collection case the list has exactly one entry, so a
      per-site loop runs once; a collection never yields None. */
  lemma ParentSitesLength(f: SitesField)
    ensures !f.SiteCollection? ==> |ParentSites(f)| == 1
    ensures f.SiteCollection? ==> None !in ParentSites(f)
  {
  }

  /** A model class of the application registry: its name and the names of
      all its base classes. */
  datatype ModelClass = ModelClass(name: string, bases: set<string>)

  /** Python's `issubclass`: a class is a subclass of itself and of each of
      its bases. */
  predicate IsSubclass(m: ModelClass, base: string) {
    m.name == base || base in m.bases
  }

  /** `parent_models(base)`: the registry's models that subclass `base`, in
      registry order. */
  function ParentModels(registry: seq<ModelClass>, base: string): (r: seq<ModelClass>)
    ensures forall m :: m in r <==> m in registry && IsSubclass(m, base)
    ensures |r| <= |registry|
  {
    if |registry| == 0 then []
    else
      var front := registry[..|registry| - 1];
      var m := registry[|registry| - 1];
      assert registry == front + [m];
      ParentModels(front, base) + (if IsSubclass(m, base) then [m] else [])
  }

  /** The filter distributes over concatenation, which is to say it keeps
      the registry's order. */
  lemma {:induction false} ParentModelsConcat(a: seq<ModelClass>, b: seq<ModelClass>, base: string)
    ensures ParentModels(a + b, base) == ParentModels(a, base) + ParentModels(b, base)
  {
    if |b| == 0 {
      assert a + b == a;
    } else {
      var front := b[..|b| - 1];
      assert (a + b)[..|a + b| - 1] == a + front;
      assert (a + b)[|a + b| - 1] == b[|b| - 1];
      ParentModelsConcat(a, front, base);
    }
  }
}
