/** What models.py computes from the rows of a block: the manager filters,
    the template path, the `fields` and `nested_fields` maps, the template
    context, `can_render` and `can_cache`. The cached properties are
    modelled as functions of the rows; their memoisation is not modelled. */
module Models {
  import opened Wrappers
  import opened FieldTypes
  import opened Tables

  // ---------------------------------------------------------------------
  // Manager filters

  /** The row conditions the querysets of the core filter on. */
  datatype Cond =
    | ShownRow              // visible=True
    | PublishedRow          // draft=False
    | DraftRow              // draft=True
    | SavedDraftRow         // draft=True, saved=True
    | SavedPublishedRow     // draft=False, saved=True
    | AnyRow
    | TopLevelWithFile      // parent__isnull=True, template_filename != ""

  predicate Holds(t: Tables, cond: Cond, b: Block) {
    match cond
    case ShownRow => b.visible
    case PublishedRow => !b.draft
    case DraftRow => b.draft
    case SavedDraftRow => b.draft && b.saved
    case SavedPublishedRow => !b.draft && b.saved
    case AnyRow => true
    case TopLevelWithFile =>
      b.parent.None? && !(b.template in t.templates && t.templates[b.template].templateFilename == "")
  }

  /** `queryset.filter(...)`: ids with no row are dropped, order is kept. */
  function Where(t: Tables, qs: seq<nat>, cond: Cond): (r: seq<nat>)
    ensures forall c :: c in r <==> c in qs && c in t.blocks && Holds(t, cond, t.blocks[c])
    ensures |r| <= |qs|
    ensures Increasing(qs) ==> Increasing(r)
  {
    if |qs| == 0 then []
    else
      var front := qs[..|qs| - 1];
      var c := qs[|qs| - 1];
      assert qs == front + [c];
      var r0 := Where(t, front, cond);
      if c in t.blocks && Holds(t, cond, t.blocks[c]) then
        assert Increasing(qs) ==> forall i :: 0 <= i < |r0| ==> r0[i] < c by {
          if Increasing(qs) {
            forall i | 0 <= i < |r0| ensures r0[i] < c {
              assert r0[i] in front;
              var j :| 0 <= j < |front| && front[j] == r0[i];
              assert qs[j] == r0[i];
            }
          }
        }
        r0 + [c]
      else r0
  }

  /** Filtering a queryset whose rows all pass changes nothing. */
  lemma {:induction false} WhereAllPass(t: Tables, qs: seq<nat>, cond: Cond)
    requires forall c :: c in qs ==> c in t.blocks && Holds(t, cond, t.blocks[c])
    ensures Where(t, qs, cond) == qs
  {
    if |qs| > 0 {
      assert qs == qs[..|qs| - 1] + [qs[|qs| - 1]];
      WhereAllPass(t, qs[..|qs| - 1], cond);
    }
  }

  /** VisibleManager.visible: shown rows only. */
  function VisibleBase(t: Tables, qs: seq<nat>): (r: seq<nat>)
    ensures forall c :: c in r <==> c in qs && c in t.blocks && t.blocks[c].visible
  {
    Where(t, qs, ShownRow)
  }

  /** ContentBlockManager.visible: shown and published. */
  function Visible(t: Tables, qs: seq<nat>): (r: seq<nat>)
    ensures forall c :: c in r <==> c in qs && c in t.blocks && t.blocks[c].visible && !t.blocks[c].draft
  {
    Where(t, VisibleBase(t, qs), PublishedRow)
  }

  /** ContentBlockManager.previews: shown drafts saved through the editor. */
  function Previews(t: Tables, qs: seq<nat>): (r: seq<nat>)
    ensures forall c :: c in r <==>
      c in qs && c in t.blocks && t.blocks[c].visible && t.blocks[c].draft && t.blocks[c].saved
  {
    Where(t, VisibleBase(t, qs), SavedDraftRow)
  }

  /** ContentBlockManager.nested: shown, published and saved. */
  function Nested(t: Tables, qs: seq<nat>): (r: seq<nat>)
    ensures forall c :: c in r <==>
      c in qs && c in t.blocks && t.blocks[c].visible && !t.blocks[c].draft && t.blocks[c].saved
  {
    Where(t, VisibleBase(t, qs), SavedPublishedRow)
  }

  /** ContentBlockManager.published: every published row, shown or not. */
  function Published(t: Tables, qs: seq<nat>): (r: seq<nat>)
    ensures forall c :: c in r <==> c in qs && c in t.blocks && !t.blocks[c].draft
  {
    Where(t, qs, PublishedRow)
  }

  /** ContentBlockManager.drafts: every draft row, shown or not. */
  function Drafts(t: Tables, qs: seq<nat>): (r: seq<nat>)
    ensures forall c :: c in r <==> c in qs && c in t.blocks && t.blocks[c].draft
  {
    Where(t, qs, DraftRow)
  }

  /** Published and drafts split every queryset: together they have as
      many rows as the queryset has existing rows. */
  lemma {:induction false} PublishedDraftsPartition(t: Tables, qs: seq<nat>)
    ensures |Published(t, qs)| + |Drafts(t, qs)| == |Where(t, qs, AnyRow)|
  {
    if |qs| > 0 {
      PublishedDraftsPartition(t, qs[..|qs| - 1]);
    }
  }

  // ---------------------------------------------------------------------
  // Template path, can_render, can_cache

  const TemplateDir: string := "content_blocks/content_blocks/"

  /** ContentBlockTemplate.template (and ContentBlock.template, whose
      `or None` changes nothing since the path is never empty). */
  function TemplatePath(filename: string): (r: Option<string>)
    ensures r.Some? <==> filename != ""
    ensures r.Some? ==> |r.value| > |TemplateDir| && r.value[..|TemplateDir|] == TemplateDir
  {
    if filename != "" then Some(TemplateDir + filename) else None
  }

  /** The filename is recovered from the path, so different filenames give
      different paths. */
  lemma TemplatePathInjective(a: string, b: string)
    requires TemplatePath(a) == TemplatePath(b) && TemplatePath(a).Some?
    ensures a == b
  {
    assert a == TemplatePath(a).value[|TemplateDir|..];
    assert b == TemplatePath(b).value[|TemplateDir|..];
  }

  function BlockTemplate(t: Tables, b: nat): Option<string>
    requires Valid(t) && b in t.blocks
  {
    TemplatePath(t.templates[t.blocks[b].template].templateFilename)
  }

  /** ContentBlock.can_render, with `found` whether the template loader finds a path. */
  predicate CanRender(found: string -> bool, t: Tables, b: nat)
    requires Valid(t) && b in t.blocks
  {
    BlockTemplate(t, b).Some? && found(BlockTemplate(t, b).value)
  }

  /** ContentBlock.can_cache. */
  predicate CanCache(disableCache: bool, found: string -> bool, t: Tables, b: nat)
    requires Valid(t) && b in t.blocks
  {
    && !disableCache
    && !t.blocks[b].draft
    && t.blocks[b].parent.None?
    && !t.templates[t.blocks[b].template].noCache
    && CanRender(found, t, b)
  }

  /** `can_render` is false without a template filename, and otherwise true
      exactly when the loader finds the path. */
  lemma CanRenderCases(found: string -> bool, t: Tables, b: nat)
    requires Valid(t) && b in t.blocks
    ensures var fn := t.templates[t.blocks[b].template].templateFilename;
      && (fn == "" ==> !CanRender(found, t, b))
      && (fn != "" ==> (CanRender(found, t, b) <==> found(TemplateDir + fn)))
  {
  }

  /** `can_cache` holds exactly when caching is on, the block is a published
      top-level block, its template allows caching and it can be rendered. */
  lemma CanCacheExactly(disableCache: bool, found: string -> bool, t: Tables, b: nat)
    requires Valid(t) && b in t.blocks
    ensures CanCache(disableCache, found, t, b) <==>
      && !disableCache && !t.blocks[b].draft && t.blocks[b].parent.None?
      && !t.templates[t.blocks[b].template].noCache
      && t.templates[t.blocks[b].template].templateFilename != ""
      && found(TemplateDir + t.templates[t.blocks[b].template].templateFilename)
  {
  }

  // ---------------------------------------------------------------------
  // fields, nested_fields, context

  ghost predicate FieldRows(t: Tables, fs: seq<nat>) {
    forall f :: f in fs ==> f in t.fields && t.fields[f].templateField in t.templateFields
  }

  /** The dictionary built by iterating the fields in order: each field is
      stored under its key, a later field replacing an earlier one. */
  function FieldsMap(t: Tables, fs: seq<nat>): (m: map<string, nat>)
    requires FieldRows(t, fs)
    ensures m.Keys == set f | f in fs :: Key(t, f)
    ensures forall k :: k in m ==> m[k] in fs && Key(t, m[k]) == k
  {
    if |fs| == 0 then map[]
    else
      var f := fs[|fs| - 1];
      assert fs == fs[..|fs| - 1] + [f];
      FieldsMap(t, fs[..|fs| - 1])[Key(t, f) := f]
  }

  /** The `template_field__field_type=NestedField` filter. */
  function NestedOnly(t: Tables, fs: seq<nat>): (r: seq<nat>)
    requires FieldRows(t, fs)
    ensures forall f :: f in r <==> f in fs && IsNestedField(t, f)
  {
    if |fs| == 0 then []
    else
      var f := fs[|fs| - 1];
      assert fs == fs[..|fs| - 1] + [f];
      NestedOnly(t, fs[..|fs| - 1]) + (if IsNestedField(t, f) then [f] else [])
  }

  /** ContentBlock.fields. */
  function BlockFields(t: Tables, b: nat): map<string, nat>
    requires Valid(t)
  {
    FieldsMap(t, FieldsOf(t, b))
  }

  /** ContentBlock.nested_fields, the dict comprehension over the filtered
      queryset. */
  function BlockNestedFields(t: Tables, b: nat): map<string, nat>
    requires Valid(t)
  {
    FieldsMap(t, NestedOnly(t, FieldsOf(t, b)))
  }

  /** The loop of ContentBlock.fields over the block's fields `fs`: it
      builds the key-to-field dict and, in the same pass, the dict it stores
      as `nested_fields`. */
  method FieldsLoop(t: Tables, fs: seq<nat>) returns (fields: map<string, nat>, nested: map<string, nat>)
    requires FieldRows(t, fs)
    ensures fields == FieldsMap(t, fs)
    ensures nested == FieldsMap(t, NestedOnly(t, fs))
  {
    fields := map[];
    nested := map[];
    for i := 0 to |fs|
      invariant fields == FieldsMap(t, fs[..i])
      invariant nested == FieldsMap(t, NestedOnly(t, fs[..i]))
    {
      var f := fs[i];
      FieldsStep(t, fs, i);
      fields := fields[Key(t, f) := f];
      if IsNestedField(t, f) {
        nested := nested[Key(t, f) := f];
      }
    }
    assert fs[..|fs|] == fs;
  }

  /** One more field row: its key maps to it, in the nested map too when
      it is nested. */
  lemma FieldsStep(t: Tables, fs: seq<nat>, i: nat)
    requires FieldRows(t, fs) && i < |fs|
    ensures FieldRows(t, fs[..i]) && FieldRows(t, fs[..i + 1])
    ensures FieldsMap(t, fs[..i + 1]) == FieldsMap(t, fs[..i])[Key(t, fs[i]) := fs[i]]
    ensures FieldsMap(t, NestedOnly(t, fs[..i + 1])) ==
      if IsNestedField(t, fs[i]) then FieldsMap(t, NestedOnly(t, fs[..i]))[Key(t, fs[i]) := fs[i]]
      else FieldsMap(t, NestedOnly(t, fs[..i]))
  {
    var f := fs[i];
    ghost var pre := fs[..i + 1];
    assert pre[..i] == fs[..i] && pre[i] == f;
    assert FieldsMap(t, pre) == FieldsMap(t, fs[..i])[Key(t, f) := f];
    ghost var n := NestedOnly(t, fs[..i]);
    if IsNestedField(t, f) {
      assert NestedOnly(t, pre) == n + [f];
      assert (n + [f])[..|n|] == n;
      assert FieldsMap(t, n + [f]) == FieldsMap(t, n)[Key(t, f) := f];
    } else {
      assert NestedOnly(t, pre) == n;
    }
  }

  /** ContentBlock.fields: the dict it returns is `fields`, and the one it
      leaves behind as `nested_fields` is the one the `nested_fields`
      property computes. */
  method Fields(t: Tables, b: nat) returns (fields: map<string, nat>, nested: map<string, nat>)
    requires Valid(t)
    ensures fields == BlockFields(t, b)
    ensures nested == BlockNestedFields(t, b)
  {
    fields, nested := FieldsLoop(t, FieldsOf(t, b));
  }

  /** No two of the fields share a key (the unique constraint on key and
      template, with one field per template field). */
  ghost predicate UniqueKeys(t: Tables, fs: seq<nat>)
    requires FieldRows(t, fs)
  {
    forall i, j :: 0 <= i < j < |fs| ==> Key(t, fs[i]) != Key(t, fs[j])
  }

  /** Every nested field map entry is an entry of the fields map... */
  lemma {:induction false} NestedFieldsWithinFields(t: Tables, fs: seq<nat>)
    requires FieldRows(t, fs)
    ensures forall k :: k in FieldsMap(t, NestedOnly(t, fs)) ==> k in FieldsMap(t, fs)
    ensures forall k :: k in FieldsMap(t, NestedOnly(t, fs)) ==> IsNestedField(t, FieldsMap(t, NestedOnly(t, fs))[k])
  {
    forall k | k in FieldsMap(t, NestedOnly(t, fs)) ensures k in FieldsMap(t, fs) {
      var f := FieldsMap(t, NestedOnly(t, fs))[k];
      assert f in fs;
    }
  }

  /** ...and with distinct keys the nested map is exactly the part of the
      fields map whose entries are nested fields. */
  lemma {:induction false} NestedFieldsSubmap(t: Tables, fs: seq<nat>)
    requires FieldRows(t, fs) && UniqueKeys(t, fs)
    ensures forall k :: k in FieldsMap(t, NestedOnly(t, fs)) <==>
      k in FieldsMap(t, fs) && IsNestedField(t, FieldsMap(t, fs)[k])
    ensures forall k :: k in FieldsMap(t, NestedOnly(t, fs)) ==>
      FieldsMap(t, NestedOnly(t, fs))[k] == FieldsMap(t, fs)[k]
  {
    if |fs| > 0 {
      var front := fs[..|fs| - 1];
      var f := fs[|fs| - 1];
      assert fs == front + [f];
      assert UniqueKeys(t, front) by {
        forall i, j | 0 <= i < j < |front| ensures Key(t, front[i]) != Key(t, front[j]) {
          assert front[i] == fs[i] && front[j] == fs[j];
        }
      }
      NestedFieldsSubmap(t, front);
      var n := NestedOnly(t, front);
      if IsNestedField(t, f) {
        assert NestedOnly(t, fs) == n + [f];
        assert (n + [f])[..|n|] == n;
      } else {
        assert NestedOnly(t, fs) == n;
      }
    }
  }

  /** A nested field's context value: its visible, published, saved child
      blocks. */
  function NestedChildren(t: Tables, f: nat): seq<nat> {
    Nested(t, ChildrenOf(t, f))
  }

  const CssClassKey: string := "css_class"

  /** ContentBlock.context: each field's context value under its key, then
      the block's CSS class under "css_class" (replacing a field of that
      key). */
  function Context(t: Tables, b: nat): (c: map<string, ContextValue>)
    requires Valid(t) && b in t.blocks
    ensures c.Keys == BlockFields(t, b).Keys + {CssClassKey}
    ensures c[CssClassKey] == Plain(StrV(t.blocks[b].cssClass))
    ensures forall k :: k in BlockFields(t, b) && k != CssClassKey ==>
      c[k] == ContextValueOf(t.fields[BlockFields(t, b)[k]], NestedChildren(t, BlockFields(t, b)[k]))
  {
    var fm := BlockFields(t, b);
    (map k | k in fm :: ContextValueOf(t.fields[fm[k]], NestedChildren(t, fm[k])))[CssClassKey := Plain(StrV(t.blocks[b].cssClass))]
  }
}
