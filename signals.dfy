/** The signal handlers: the decision of `cleanup_media` to delete a media
    file nothing else uses, and `update_cache_template`, which refreshes the
    cache of the blocks whose template file a saved database template names. */
module Signals {
  import opened Wrappers
  import opened FieldTypes
  import opened Tables
  import opened Render
  import opened Parents
  import opened Cache
  import opened CacheBulk
  import opened Models
  import opened Filters
  import opened CacheCover

  // ---------------------------------------------------------------------
  // cleanup_media

  /** `object_types`: the slot holding the media file of a field type. */
  function MediaSlot(ft: FieldType): (r: Option<Slot>)
    ensures r.Some? <==> ft == ImageField || ft == FileField || ft == VideoField
    ensures r.Some? ==> r == SlotOf(ft)
  {
    match ft
    case ImageField => Some(ImageSlot)
    case FileField => Some(FileSlot)
    case VideoField => Some(VideoSlot)
    case _ => None
  }

  /** Some row other than `id` stores `file` in `slot`. */
  predicate UsedElsewhere(fields: map<nat, Field>, slot: Slot, file: Value, id: nat) {
    exists o :: o in fields && o != id && Get(fields[o], slot) == file
  }

  /** The file `cleanup_media` calls `delete` on, if any, for the `instance` with id
      `id` about to be saved (`delete` false) or deleted (`delete` true),
      given the stored rows `fields`. The old file is the instance's own on
      delete and the stored row's on save; the new file is none on delete
      and the instance's on save. A save of an id with no stored row does
      nothing. */
  function CleanupMedia(fields: map<nat, Field>, raw: bool, id: Option<nat>, instance: Field, delete: bool): (r: Option<Value>)
    ensures r.Some? ==> !raw && id.Some? && MediaSlot(instance.fieldType).Some?
  {
    if raw || id.None? then None
    else match MediaSlot(instance.fieldType)
      case None => None
      case Some(slot) =>
        if !delete && id.value !in fields then None
        else
          var oldFile := if delete then Get(instance, slot) else Get(fields[id.value], slot);
          var newFile := if delete then NoneV else Get(instance, slot);
          if oldFile != newFile && !UsedElsewhere(fields, slot, oldFile, id.value) then Some(oldFile) else None
  }

  /** During `loaddata`, for a new instance and for a field type without a
      media file, nothing is deleted. */
  lemma CleanupMediaSkips(fields: map<nat, Field>, raw: bool, id: Option<nat>, instance: Field, delete: bool)
    requires raw || id.None? || !(instance.fieldType in {ImageField, FileField, VideoField})
    ensures CleanupMedia(fields, raw, id, instance, delete) == None
  {
  }

  /** When the handler runs on delete, `delete(save=False)` is called on the
      instance's own file exactly when no other row stores it. For the
      empty file (the column default) Django's `FieldFile.delete` then does
      nothing, which the model does not distinguish. */
  lemma CleanupOnDelete(fields: map<nat, Field>, id: nat, instance: Field)
    requires MediaSlot(instance.fieldType).Some?
    ensures var slot := MediaSlot(instance.fieldType).value; var oldFile := Get(instance, slot);
      CleanupMedia(fields, false, Some(id), instance, true) ==
        if oldFile != NoneV && !UsedElsewhere(fields, slot, oldFile, id) then Some(oldFile) else None
  {
  }

  /** On save, `delete(save=False)` is called on the stored file exactly
      when the instance replaces it and no other row stores it. */
  lemma CleanupOnSave(fields: map<nat, Field>, id: nat, instance: Field)
    requires MediaSlot(instance.fieldType).Some? && id in fields
    ensures var slot := MediaSlot(instance.fieldType).value; var oldFile := Get(fields[id], slot);
      CleanupMedia(fields, false, Some(id), instance, false) ==
        if oldFile != Get(instance, slot) && !UsedElsewhere(fields, slot, oldFile, id) then Some(oldFile) else None
  {
  }

  /** A file that another row stores is never deleted, and neither is one
      the instance keeps. */
  lemma CleanupKeepsShared(fields: map<nat, Field>, raw: bool, id: Option<nat>, instance: Field, delete: bool, o: nat)
    requires id.Some? && o in fields && o != id.value
    requires MediaSlot(instance.fieldType).Some?
    ensures var slot := MediaSlot(instance.fieldType).value;
      CleanupMedia(fields, raw, id, instance, delete).Some? ==>
        && CleanupMedia(fields, raw, id, instance, delete).value != Get(fields[o], slot)
        && (!delete ==> CleanupMedia(fields, raw, id, instance, delete).value != Get(instance, slot))
  {
  }

  // ---------------------------------------------------------------------
  // update_cache_template

  /** `s.split("/")`: the pieces between the separators, at least one. */
  function Split(s: string): (r: seq<string>)
    ensures |r| >= 1
    ensures forall i :: 0 <= i < |r| ==> '/' !in r[i]
  {
    if |s| == 0 then [""]
    else
      var p := Split(s[..|s| - 1]);
      if s[|s| - 1] == '/' then p + [""]
      else p[..|p| - 1] + [p[|p| - 1] + [s[|s| - 1]]]
  }

  /** `"/".join(pieces)`. */
  function Join(pieces: seq<string>): string
    requires |pieces| >= 1
  {
    if |pieces| == 1 then pieces[0] else Join(pieces[..|pieces| - 1]) + "/" + pieces[|pieces| - 1]
  }

  /** Joining the pieces of a split gives the string back. */
  lemma {:induction false} JoinSplit(s: string)
    ensures Join(Split(s)) == s
  {
    if |s| > 0 {
      var pre := s[..|s| - 1];
      var p := Split(pre);
      JoinSplit(pre);
      assert s == pre + [s[|s| - 1]];
      if s[|s| - 1] != '/' {
        var q := p[..|p| - 1] + [p[|p| - 1] + [s[|s| - 1]]];
        assert q[..|q| - 1] == p[..|p| - 1];
        if |p| > 1 {
          JoinAppendLast(p, [s[|s| - 1]]);
        }
      }
    }
  }

  /** Extending the last piece extends the join. */
  lemma JoinAppendLast(p: seq<string>, tail: string)
    requires |p| > 1
    ensures Join(p[..|p| - 1] + [p[|p| - 1] + tail]) == Join(p) + tail
  {
    var q := p[..|p| - 1] + [p[|p| - 1] + tail];
    assert q[..|q| - 1] == p[..|p| - 1];
  }

  /** `instance.name.split("/")[-1]`: the template's own file name. */
  function TemplateFilenameOf(name: string): (r: string)
    ensures '/' !in r
  {
    var p := Split(name);
    p[|p| - 1]
  }

  /** The file name is what follows the last separator: the name is it,
      or it after a prefix ending in a separator. */
  lemma {:induction false} TemplateFilenameSuffix(name: string)
    ensures var r := TemplateFilenameOf(name);
      && |r| <= |name| && name[|name| - |r|..] == r
      && (|r| == |name| || name[|name| - |r| - 1] == '/')
  {
    if |name| > 0 {
      var pre := name[..|name| - 1];
      TemplateFilenameSuffix(pre);
      var r := TemplateFilenameOf(name);
      if name[|name| - 1] != '/' {
        assert r == TemplateFilenameOf(pre) + [name[|name| - 1]];
        assert name == pre + [name[|name| - 1]];
        assert name[|name| - |r|..] == pre[|pre| - |TemplateFilenameOf(pre)|..] + [name[|name| - 1]];
        if |r| < |name| {
          assert name[|name| - |r| - 1] == pre[|pre| - |TemplateFilenameOf(pre)| - 1];
        }
      }
    }
  }

  /** `ContentBlock.objects.filter(content_block_template__template_filename=fn)`. */
  function BlocksWithFilename(t: Tables, fn: string): (r: seq<nat>)
    ensures forall c :: c in r <==>
      c in t.blocks && c < t.nextBlock && t.blocks[c].template in t.templates
      && t.templates[t.blocks[c].template].templateFilename == fn
    ensures Increasing(r)
  {
    Enumerate(t.nextBlock, set c | c in t.blocks && t.blocks[c].template in t.templates
                                   && t.templates[t.blocks[c].template].templateFilename == fn)
  }

  /** `update_cache_template`: nothing during `loaddata`; otherwise
      `set_cache_all` limited to the blocks whose template file is the
      saved template's file name. */
  method UpdateCacheTemplate(store: CacheStore, s: Settings, e: TemplateEngine, t: Tables,
                             registry: seq<ModelClass>, base: string, raw: bool, name: string)
    requires Valid(t)
    modifies store, e
    ensures raw ==> store.entries == old(store.entries)
    ensures !raw ==>
      store.entries == AllFold(s, e, t, SetOp(Some(BlocksWithFilename(t, TemplateFilenameOf(name)))), old(store.entries), registry, base)
  {
    if raw {
      return;
    }
    var blocks := BlocksWithFilename(t, TemplateFilenameOf(name));
    SetCacheAll(store, s, e, t, registry, base, Some(blocks));
  }

  /** The repaired `update_cache_template` refreshes every cacheable block
      of a registered parent model whose template has the saved template's
      file name: after the call its key holds the HTML rendered for each
      site of its row. */
  lemma UpdateCacheTemplateRefreshes(s: Settings, e: TemplateEngine, t: Tables, registry: seq<ModelClass>,
                                     base: string, name: string, m: map<string, string>)
    requires Valid(t)
    ensures forall mc, p, c, st ::
      mc in ParentModels(registry, base) && p in ParentsOfModel(t, mc.name) && c in t.parents[p].blocks
      && t.templates[t.blocks[c].template].templateFilename == TemplateFilenameOf(name)
      && st in ParentSites(t.parents[p].sitesField) && CanCache(s.disableCache, e.found, t, c) ==>
      Refreshed(s, e, t, AllFold(s, e, t, SetOp(Some(BlocksWithFilename(t, TemplateFilenameOf(name)))),
                                 m, registry, base), c, st)
  {
    var qs := BlocksWithFilename(t, TemplateFilenameOf(name));
    AllFoldRefreshes(s, e, t, Some(qs), m, registry, base);
    forall mc, p, c, st | mc in ParentModels(registry, base) && p in ParentsOfModel(t, mc.name)
                          && c in t.parents[p].blocks
                          && t.templates[t.blocks[c].template].templateFilename == TemplateFilenameOf(name)
                          && st in ParentSites(t.parents[p].sitesField) && CanCache(s.disableCache, e.found, t, c)
      ensures c in ParentTargets(t, SetOp(Some(qs)), p)
    {
      assert c in ParentBlocks(t, p);
      CanCacheImpliesCacheable(s.disableCache, e.found, t, ParentBlocks(t, p), c);
      assert c in qs;
      CanCacheImpliesCacheable(s.disableCache, e.found, t, qs, c);
    }
  }

  /** `update_cache_template` as written: `set_cache_all(queryset=...)`
      reaches the bare `parent_models()` call whenever caching is enabled,
      so saving or deleting a database template outside `loaddata` raises
      `TypeError` from the signal. */
  function UpdateCacheTemplateAsWritten(s: Settings, raw: bool, name: string, t: Tables,
                                        m: map<string, string>): (r: Result<map<string, string>>)
    ensures r.Err? <==> !raw && !s.disableCache
    ensures r.Ok? ==> r.value == m
  {
    if raw then Ok(m)
    else AllAsWritten(s, SetOp(Some(BlocksWithFilename(t, TemplateFilenameOf(name)))), m)
  }
}
