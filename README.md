# django-content-blocks, modelled in Dafny

django-content-blocks lets a Django site attach ordered "content blocks" to pages and other parent objects. Each block is an instance of a template, and each template defines typed fields: text, rich content, image, file, video, embedded video, checkbox, choice, model choice, and "nested", which holds child blocks. Editors work on draft blocks and publish them as copies. Published top-level blocks are rendered through Django templates and their HTML is cached, per site where sites are configured.

The project models the server-side core of that system:

- **Block tree.** The database tables of blocks, fields, templates, template fields and parent objects (`tables.dfy`).
- **Field types.** The ten field types and the per-type `context_value` and `save_value` (`field_types.dfy`).
- **Block properties and querysets.** The block's `fields`, `nested_fields` and `context`; its template path; `can_render` and `can_cache`; the manager querysets `visible`, `previews`, `nested`, `published` and `drafts` (`models.py`, modelled in `models.dfy`).
- **Parents.** The site enumerator and the parent-model registry filter (`parents.dfy`).
- **Rendering.** The render context and the site a context names, with a template engine whose loader and renderer are opaque parameters (`render.dfy`).
- **Cache keys and the store.** Cache keys, the key/value store, and get, set, delete and get-or-set (`cache.dfy`).
- **Bulk cache operations.** Every per-site, per-parent-model and "all" operation, each as a loop proved equal to a fold (`cache_bulk.dfy`). The laws those folds obey are in `cache_laws.dfy`. What the repaired `*_all` calls leave for each key of a target block and site (cleared, filled, or holding that site's render) is proved in `cache_cover.dfy`.
- **Queryset filters.** The `renderable`, `cacheable` and `content_blocks_in_queryset` filters (`filters.dfy`).
- **Cloning.** Deep cloning of a block with its fields and nested blocks (`clone.dfy`). The growth facts shared with block creation are in `growth.dfy`.
- **Block creation.** `create_content_block`, which creates the fields and the `min_num` nested blocks recursively (`forms.dfy`).
- **Editor forms.** The new-block and new-nested-block forms, and the editor's `ContentBlockForm.save` (`forms_save.dfy`).
- **Publish, reset and import.** Each one deletes some of the parent's blocks and clones others in their place (`forms_copy.dfy`). Publish's pre-render of the cache is in `publish.dfy`.
- **Template-field admin form.** Its `validate_choices`, `clean` and `save` (`admin_forms.dfy`).
- **Template import and export.** The import-time sync of template fields against existing blocks, and export (`template_sync.dfy`).
- **Signals.** The media-cleanup decision, and the template-file-name match that refreshes the cache (`signals.dfy`).
- **Views.** The positions parser behind drag-and-drop ordering, and the visibility toggle (`views.dfy`).

How state is represented:

- **The database.** A value of type `Tables`. Rows are keyed by `nat` ids, and each table has a counter of the next id. `Valid` states referential integrity.
- **Operations the source runs inside `transaction.atomic()`.** These return a `Result`. An error carries no tables, because the transaction rolls back.
- **The cache.** A class `CacheStore` whose `entries: map<string, string>` its methods update. A missing key is a miss; a stored `""` is a hit.
- **The template engine.** A class with an opaque `found` predicate, an opaque `render` function, and a counter of renders, so contracts can say "renders once on a miss, never on a hit".

Each loop in the source is a `method` proved equal to a specification function. The source's promises are then lemmas about that function.

## Model

| member | source | states |
|---|---|---|
| Decimal.NatToString | content_blocks/services/content_block.py:129 | `str(id)` is a non-empty digit string without a leading zero |
| Decimal.ParseNatToString | content_blocks/services/content_block.py:129 | reading the numeral of an id back gives the id |
| Decimal.NatToStringInjective | content_blocks/services/content_block.py:129 | distinct ids have distinct numerals |
| Cache.CacheKey | content_blocks/services/content_block.py:124-136 | the key is the prefix, `_`, the block id, then `_site_` and the site id only when a site is given |
| Cache.CacheKeyInjective | content_blocks/services/content_block.py:124-136 | distinct (block id, optional site id) pairs never share a key |
| Cache.CacheStore.Get | content_blocks/services/content_block.py:138-144 | a lookup hits exactly when the key is stored, and then returns the stored value (an empty string included) |
| Cache.CacheStore.Set | content_blocks/services/content_block.py:155 | the store afterwards maps the key to the value and is otherwise unchanged |
| Cache.CacheStore.Delete | content_blocks/services/content_block.py:163 | the store afterwards lacks the key and is otherwise unchanged |
| Cache.SetCache | content_blocks/services/content_block.py:146-155 | `set_cache` is the one-key write `AfterSet`, made only when `can_cache` holds |
| Cache.SetCacheWritesOneKey | content_blocks/services/content_block.py:146-155 | with `can_cache` the block's key holds the HTML; without it the store is unchanged; every other key keeps its entry |
| Cache.DeleteCache | content_blocks/services/content_block.py:157-163 | `delete_cache` removes exactly the block's key for that site, whatever `can_cache` says, and nothing else |
| Cache.DeleteCacheRemovesOneKey | content_blocks/services/content_block.py:157-163 | after the delete the key is absent, and every other key keeps its entry; no ancestor key is touched |
| Cache.GetOrSet | content_blocks/services/content_block.py:165-179 | on a hit: the stored HTML, store unchanged. On a miss: the rendered HTML, stored only when `can_cache` holds. The key uses the site given, else the context's |
| Cache.GetOrSetCache | content_blocks/services/content_block.py:165-179 | the method returns/stores what `GetOrSet` says; it renders nothing on a hit and exactly once on a miss when the block can render |
| Cache.RenderContentBlock | content_blocks/services/content_block.py:56-66 | a block that can be cached goes through get-or-set without a site; any other block is rendered directly and the store is unchanged |
| Cache.ParentTargets | content_blocks/services/content_block.py:195-204 | the blocks a parent-row step visits all exist |
| CacheBulk.GetOrSetCachePerSite | content_blocks/services/content_block.py:181-187 | the store after the loop is the per-site fold of get-or-set over the sites |
| CacheBulk.SetCacheContentBlock | content_blocks/services/content_block.py:220-230 | one render, when the block can render, and one `set_cache` of its HTML for the site |
| CacheBulk.SetCachePerSite | content_blocks/services/content_block.py:232-238 | the store after the loop is the per-site fold of `set_cache_content_block` |
| CacheBulk.DeleteCachePerSite | content_blocks/services/content_block.py:285-291 | the store after the loop is the per-site fold of `delete_cache` |
| CacheBulk.SetCacheContentBlockParent | content_blocks/services/content_block.py:277-283 | a per-site set over the sites the parent row names |
| CacheBulk.GetOrSetCacheBlocks | content_blocks/services/content_block.py:201-204 | the inner loop is the fold over the cacheable blocks, each only when it can be cached |
| CacheBulk.GetOrSetCacheParentModel | content_blocks/services/content_block.py:189-204 | the store after the loop over the model's rows is the fold over every row, its sites and its cacheable blocks |
| CacheBulk.SetCacheBlocks | content_blocks/services/content_block.py:259-260 | the inner loop is the fold of per-site sets over the blocks |
| CacheBulk.SetCacheParentModel | content_blocks/services/content_block.py:240-260 | the store after the loop over rows is the fold that restricts each row's cacheable blocks to the cacheable part of the queryset |
| CacheBulk.SetCacheParentRow | content_blocks/services/content_block.py:250-260 | one row of that loop; re-filtering the queryset on every row leaves its cacheable part unchanged |
| CacheBulk.DeleteCacheBlocks | content_blocks/services/content_block.py:305-306 | the inner loop is the fold of per-site deletes over the blocks |
| CacheBulk.DeleteCacheParentModel | content_blocks/services/content_block.py:293-306 | the store after the loop over rows is the fold of deletes over every row's cacheable blocks and sites |
| CacheBulk.GetOrSetCacheAll | content_blocks/services/content_block.py:206-218 | the repaired call, with the registry passed in: nothing when caching is disabled; otherwise the fold over the registered parent models |
| CacheBulk.SetCacheAll | content_blocks/services/content_block.py:262-275 | the repaired call: nothing when caching is disabled; otherwise the fold of per-model sets with the queryset |
| Cache.AllAsWritten | content_blocks/services/content_block.py:206-317 | as written, the three `*_all` services succeed, leaving the store unchanged, exactly for get-or-set or set with caching disabled; on every other call they raise `TypeError` |
| Cache.AllAsWrittenRaises | content_blocks/services/content_block.py:215 | with caching enabled, or for delete, the written call raises where the repaired call is the fold over the registered models |
| CacheBulk.DeleteCacheAll | content_blocks/services/content_block.py:308-317 | the repaired call: the fold of per-model deletes, run even when caching is disabled |
| CacheLaws.SitesFoldOnlyOwnKeys | content_blocks/services/content_block.py:181-187 | a per-site loop changes none but the block's own keys for the listed sites |
| CacheLaws.SitesFoldOtherBlocks | content_blocks/services/content_block.py:285-291 | a per-site loop never touches another block's key |
| CacheLaws.SetPerSiteWritesEachSite | content_blocks/services/content_block.py:232-238 | with `can_cache`: every listed site's key holds that site's render; without it: the store is unchanged |
| CacheLaws.DeletePerSiteRemovesEachSite | content_blocks/services/content_block.py:285-291 | after a per-site delete no listed site's key remains |
| CacheLaws.GetOrSetPerSiteFillsEachSite | content_blocks/services/content_block.py:181-187 | get-or-set overwrites nothing. With `can_cache` every listed site's key is present afterwards; without it the store is unchanged |
| CacheLaws.EffectTrans | content_blocks/services/content_block.py:189-317 | the bulk-operation effect (writes only keys of cacheable blocks; get-or-set keeps entries; delete only removes) composes |
| CacheLaws.SitesFoldEffect | content_blocks/services/content_block.py:181-187 | a per-site loop has that effect |
| CacheLaws.SiteStepEffect | content_blocks/services/content_block.py:186-187 | one site of a per-site loop has that effect |
| CacheLaws.BlocksFoldEffect | content_blocks/services/content_block.py:201-204 | a loop over blocks has that effect |
| CacheLaws.ParentsFoldEffect | content_blocks/services/content_block.py:195-204 | a loop over parent rows has that effect |
| CacheLaws.ModelsFoldEffect | content_blocks/services/content_block.py:217-218 | a loop over parent models has that effect |
| CacheLaws.AllFoldEffect | content_blocks/services/content_block.py:206-317 | every `*_all` operation has that effect, and get-or-set and set leave the store alone when caching is disabled |
| CacheCover.SitesFoldKeeps | content_blocks/services/content_block.py:181-187 | a per-site loop does not undo what an earlier step did for any block and site: a cleared key stays cleared, a filled key stays filled, a refreshed key keeps its render |
| CacheCover.BlockStepKeeps | content_blocks/services/content_block.py:201-204 | one block of the loop over blocks keeps what was done for every block and site |
| CacheCover.BlockStepDone | content_blocks/services/content_block.py:201-204 | one block of that loop clears, fills or refreshes its key for every listed site, each as its operation asks |
| CacheCover.BlocksFoldKeeps | content_blocks/services/content_block.py:201-204 | the loop over blocks keeps what was done before it |
| CacheCover.BlocksFoldDone | content_blocks/services/content_block.py:201-204 | after the loop over blocks every block is done for every listed site |
| CacheCover.BlocksDoneKept | content_blocks/services/content_block.py:201-204 | a later loop over blocks keeps what an earlier one did |
| CacheCover.ParentsFoldKeeps | content_blocks/services/content_block.py:189-204 | the loop over a model's rows keeps what was done before it |
| CacheCover.ParentStepDone | content_blocks/services/content_block.py:195-204 | one more row is done for its targets and its sites, and the earlier rows stay done |
| CacheCover.ParentsFoldDone | content_blocks/services/content_block.py:189-204 | after `*_parent_model` every target of every row is done for every site of that row |
| CacheCover.RowsDoneKept | content_blocks/services/content_block.py:240-260 | a later loop over rows keeps what an earlier one did |
| CacheCover.ModelsFoldDone | content_blocks/services/content_block.py:217-218 | after the loop over parent models every row of every model is done |
| CacheCover.ModelsDoneAt | content_blocks/services/content_block.py:217-218 | that read at one model, row, block and site |
| CacheCover.AllFoldDone | content_blocks/services/content_block.py:206-317 | every repaired `*_all` call does its work on every target of every registered parent model; with caching disabled get-or-set and set have no block they could cache |
| CacheCover.AllFoldDeletes | content_blocks/services/content_block.py:308-317 | after `delete_cache_all` no key of a target block remains, for any site of its row |
| CacheCover.AllFoldFills | content_blocks/services/content_block.py:206-218 | after `get_or_set_cache_all` every target block that can be cached has a key for every site of its row |
| CacheCover.AllFoldRefreshes | content_blocks/services/content_block.py:262-275 | after `set_cache_all` the key of every target block that can be cached holds that block's render for each site of its row |
| Filters.Renderable | content_blocks/services/content_block.py:19-27 | exactly the top-level blocks of the queryset (all blocks when none is given) whose template has a file name |
| Filters.Cacheable | content_blocks/services/content_block.py:29-37 | exactly the published, top-level blocks of the queryset whose template has a file name |
| Filters.InQueryset | content_blocks/services/content_block.py:39-48 | exactly the blocks of the list that are in the queryset, in list order |
| Filters.CanCacheImpliesCacheable | content_blocks/services/content_block.py:29-37 | every block of a queryset that `can_cache` passes `cacheable` |
| Filters.CacheableLeavesToCanCache | content_blocks/models.py:602-613 | on a cacheable block, `can_cache` reduces to the cache setting, `no_cache` and the template being found |
| Filters.CacheableIdempotent | content_blocks/services/content_block.py:253-254 | filtering a cacheable queryset again changes nothing |
| FieldTypes.FromName | content_blocks/models.py:143-152 | the subclass chosen for a stored `field_type` is the member with that name, and none exists for any other name |
| FieldTypes.FromNameOfName | content_blocks/models.py:47-57 | every field type's stored name maps back to it |
| FieldTypes.NewField | content_blocks/models.py:92-135 | a new field row has the given template field, block, type and content type, no object id and every slot at its default |
| FieldTypes.Put | content_blocks/models.py:216-217 | `save_value` writes one slot and leaves every other column as it was |
| FieldTypes.ContextValueOf | content_blocks/models.py:195-469 | a nested field's context value is its nested blocks; every other slot type's is the value of its own slot |
| FieldTypes.SaveValueSlotTypes | content_blocks/models.py:206-410 | text, content, checkbox, choice and embedded video store the value verbatim. Image, file and video store None in place of False. All of them return the value, save the row and keep every other column |
| FieldTypes.SaveValueThenContext | content_blocks/models.py:206-410 | after a save of a non-media slot type, the context value is what was saved |
| FieldTypes.SaveValueFails | content_blocks/models.py:440-445 | `save_value` raises exactly for a model choice given something other than None or an object |
| FieldTypes.SaveValueModelChoiceAndNested | content_blocks/models.py:436-457 | a model choice stores the object's id, or None for None, and keeps the content type; a nested field stores nothing, returns None and does not save |
| Models.Where | content_blocks/models.py:471-516 | a queryset filter keeps exactly the rows that exist and pass, in order |
| Models.WhereAllPass | content_blocks/models.py:471-516 | filtering rows that all pass changes nothing |
| Models.VisibleBase | content_blocks/abstract_models.py:8-10 | exactly the shown rows |
| Models.Visible | content_blocks/models.py:484-489 | exactly the shown, published rows |
| Models.Previews | content_blocks/models.py:491-496 | exactly the shown drafts saved through the editor |
| Models.Nested | content_blocks/models.py:498-502 | exactly the shown, published, saved rows |
| Models.Published | content_blocks/models.py:504-509 | exactly the published rows |
| Models.Drafts | content_blocks/models.py:511-516 | exactly the draft rows |
| Models.PublishedDraftsPartition | content_blocks/models.py:504-516 | published and drafts split every queryset between them |
| Models.TemplatePath | content_blocks/models.py:654-657 | a path exactly when the file name is non-empty, and then the template directory followed by the file name |
| Models.TemplatePathInjective | content_blocks/models.py:654-657 | distinct file names give distinct paths |
| Models.CanRenderCases | content_blocks/models.py:589-600 | no template path means the block cannot render; otherwise it can exactly when the loader finds the path |
| Models.CanCacheExactly | content_blocks/models.py:602-613 | `can_cache` holds exactly when caching is on, the block is published and top-level, its template is not `no_cache`, and it can render |
| Models.FieldsMap | content_blocks/models.py:557-559 | the dict's keys are the fields' keys, and each maps to a field of that key |
| Models.NestedOnly | content_blocks/models.py:568-578 | exactly the fields whose template field is nested |
| Models.FieldsLoop | content_blocks/models.py:553-566 | the loop builds the fields dict and the nested dict of the fields in order |
| Models.FieldsStep | content_blocks/models.py:557-561 | one pass of that loop adds the field under its key, and to the nested dict only when nested |
| Models.Fields | content_blocks/models.py:553-566 | `fields` and the `nested_fields` it stores are the dicts of the block's fields |
| Models.NestedFieldsWithinFields | content_blocks/models.py:553-578 | every nested entry has a key of `fields`, and its field is nested |
| Models.NestedFieldsSubmap | content_blocks/models.py:553-578 | with distinct keys, `nested_fields` is exactly the part of `fields` whose fields are nested |
| Models.Context | content_blocks/models.py:580-587 | the keys are the field keys plus `css_class`. `css_class` maps to the block's CSS class; every other key maps to its field's context value |
| Parents.ParentSites | content_blocks/services/content_block_parent.py:17-32 | `[None]` for a missing or None sites field, a one-element list for a single site, the collection itself otherwise |
| Parents.ParentSitesLength | content_blocks/services/content_block_parent.py:22-32 | outside the collection case the list has exactly one element, so per-site loops run once; a collection never holds None |
| Parents.ParentModels | content_blocks/services/content_block_parent.py:5-15 | exactly the registry's subclasses of the base |
| Parents.ParentModelsConcat | content_blocks/services/content_block_parent.py:5-15 | the filter keeps registry order |
| Tables.DeletePreservesValid | content_blocks/models.py:98-109 | cascading deletes keep the tables consistent and remove the named blocks and template fields and their fields |
| Tables.DeleteNothing | content_blocks/models.py:98-109 | deleting nothing leaves the tables as they were |
| Tables.DeleteParentRemovesBlocks | content_blocks/models.py:768-770 | deleting a parent object deletes every block it holds and no other parent object |
| Tables.ColumnsRewritten | content_blocks/models.py:98-109 | rewriting columns other than the foreign keys keeps the tables consistent |
| Render.TemplateEngine.RenderToString | content_blocks/services/content_block.py:92 | the engine returns its render of the template and context and counts one render |
| Render.SiteOf | content_blocks/services/content_block.py:106-116 | a site only comes from the `site` attribute of the context's request |
| Render.SiteOfCases | content_blocks/services/content_block.py:106-116 | None for a falsy context, for no request, and for a request without a site or with site None; otherwise the request's site |
| Render.RenderContext | content_blocks/services/content_block.py:95-104 | a new dict holding the caller's keys (a fresh dict for a falsy context), plus the block's context under `content_block` and the block under `content_block_object` |
| Render.FinalContextRequest | content_blocks/services/content_block.py:87-90 | a request naming the site is added exactly when the context has none and a site was given; nothing else changes |
| Render.RenderHtml | content_blocks/services/content_block.py:76-93 | `""` and no render when the block cannot render; otherwise exactly one render of the block's template with the final context |
| Clone.ChildrenAfterOwner | content_blocks/services/content_block.py:336 | the blocks nested in a field come after the block owning it, so the recursion ends |
| Clone.CloneInto | content_blocks/services/content_block.py:325-341 | the clone method, with its loops over fields and nested blocks, builds exactly the specification's copy |
| Clone.CloneContentBlock | content_blocks/services/content_block.py:325-341 | `clone_content_block` on the current rows is the specification's copy |
| Clone.CloneBlockGrows | content_blocks/services/content_block.py:330-341 | a clone adds a new top block carrying the attrs and a subtree under fresh fields, and only copies of existing rows |
| Clone.CloneFieldsGrows | content_blocks/services/content_block.py:332-339 | the loop over fields only adds copies, on the new block or below it |
| Clone.CloneChildrenGrows | content_blocks/services/content_block.py:336-339 | the nested blocks' copies all sit under the new field |
| Clone.CloneContentBlockGrows | content_blocks/services/content_block.py:325-341 | the tables stay consistent. Every original row is unchanged. The new top block is the original with the attrs applied. Every other new block is nested under a new field |
| Clone.CloneContentBlockFields | content_blocks/services/content_block.py:332-333 | the new block's fields are exactly one copy of each original field, moved onto it |
| Clone.CloneFieldsMatch | content_blocks/services/content_block.py:332-333 | each original field has a copy on the new block, and every field added there is such a copy |
| Growth.GrownTrans | content_blocks/services/content_block.py:325-341 | adding rows twice is adding rows |
| Forms.CreateContentBlock | content_blocks/forms.py:57-91 | the recursive creation method builds exactly the specification `Create` |
| Forms.CreateNestedBlocks | content_blocks/forms.py:83-89 | the `min_num` loop creates the nested blocks the specification says, stopping at the first error |
| Forms.CreateFieldsErrStays | content_blocks/forms.py:62-89 | an error in the loop over template fields ends the whole create |
| Forms.CreateChildrenErrStays | content_blocks/forms.py:83-89 | an error in the loop over nested blocks ends it |
| Forms.CreateGrows | content_blocks/forms.py:57-91 | a create adds a new block with the given template, draft flag, parent and position as its top row, and keeps every row |
| Forms.CreateChildrenShape | content_blocks/forms.py:81-89 | the field gets exactly `min_num` nested blocks: published, of the first nested template, at positions 0 to `min_num`-1 |
| Forms.CreateFieldsShape | content_blocks/forms.py:71-89 | one field row per template field, with type and content type copied; the block has no other field; a nested field gets its `min_num` children |
| Forms.CreateShape | content_blocks/forms.py:57-91 | the new block has exactly one field per template field of its template, shaped as above |
| FormSaves.AddToParentValid | content_blocks/forms.py:114-115 | adding a block to a parent adds it to that parent's relation only |
| FormSaves.SaveNewContentBlockForm | content_blocks/forms.py:117-123 | the new-block form creates a draft block and adds it to the parent |
| FormSaves.NewTopLevelShape | content_blocks/forms.py:117-123 | the new block is a top-level draft with one field per template field; the parent gains exactly it; every other parent is unchanged |
| FormSaves.SaveNewNestedBlockForm | content_blocks/forms.py:145-151 | the nested-block form creates a published block under the given field |
| FormSaves.NewNestedShape | content_blocks/forms.py:145-151 | the new block is published and nested in the given field, which keeps its other blocks; no parent changes |
| FormSaves.SaveContentBlockForm | content_blocks/forms.py:186-200 | the editor save, a loop over the field keys in any order, computes exactly `EditSave` |
| FormSaves.SaveFields | content_blocks/forms.py:189-191 | the loop either finds a key whose `save_value` raises, or saves every key present in the cleaned data |
| FormSaves.ProgressStep | content_blocks/forms.py:189-191 | one pass of the loop saves the key's field when the key is in the cleaned data, and skips it otherwise |
| FormSaves.EditSaveErr | content_blocks/forms.py:186-200 | a raising `save_value` fails the whole save, so nothing is written |
| FormSaves.EditSaveFails | content_blocks/forms.py:186-200 | the save fails exactly when a model-choice key of the cleaned data holds neither None nor an object |
| FormSaves.EditSaveValid | content_blocks/forms.py:186-200 | a successful save keeps the tables consistent, and every field keeps its block and its template field |
| FormSaves.EditSaveWrites | content_blocks/forms.py:186-200 | `save_value` applies exactly to the fields whose key is in the cleaned data. Every other field is unchanged. The block gets the CSS class and `saved`; no other block changes |
| FormSaves.EditSaveSameDict | content_blocks/forms.py:186-200 | a save leaves the block's field dict as it was |
| FormSaves.EditSaveThenContext | content_blocks/forms.py:186-200 | after a save, the block's context holds each saved value (None for a cleared media file) and the new CSS class |
| FormCopies.CloneEach | content_blocks/forms.py:219-223 | cloning a list of blocks and adding each copy to the parent only adds rows |
| FormCopies.CloneEachLoop | content_blocks/forms.py:219-223 | the clone-and-add loop builds exactly `CloneEach` |
| FormCopies.ReplaceLoop | content_blocks/forms.py:241-250 | the delete-then-clone body shared by publish, reset and import builds exactly `Replace` |
| FormCopies.Source | content_blocks/forms.py:246 | the blocks to clone all survive the delete |
| FormCopies.ReplaceShape | content_blocks/forms.py:209-274 | after a replace: the deleted blocks are gone. The parent holds its other blocks plus one new copy per source block, attrs applied. Other parents only lose deleted blocks. Every kept block is unchanged |
| FormCopies.ReplaceQuerysets | content_blocks/forms.py:209-274 | the parent's blocks of the deleted kind are exactly the copies, and the kept kind is unchanged |
| FormCopies.ReplaceCopies | content_blocks/forms.py:209-274 | the copies are, in order, the source blocks with the attrs applied |
| FormCopies.SourceBeforeDelete | content_blocks/forms.py:219 | reading the source after the delete gives the blocks it had before |
| FormCopies.PublishShape | content_blocks/forms.py:209-223 | publish: the parent's published blocks are exactly new copies of its drafts, with draft off. The drafts are unchanged, so their count too. The old published blocks are gone |
| FormCopies.ResetShape | content_blocks/forms.py:241-250 | reset: the parent's drafts are exactly new copies of its published blocks, with draft on. The published blocks are unchanged; the old drafts are gone |
| FormCopies.MasterChoices | content_blocks/forms.py:264-265 | the masters offered are exactly the other objects of the parent's model, never the parent itself |
| FormCopies.SaveResetContentBlocksForm | content_blocks/forms.py:241-250 | the reset form computes `ResetRows` |
| FormCopies.SaveImportContentBlocksForm | content_blocks/forms.py:267-274 | the import form computes `ImportRows` |
| FormCopies.ImportShape | content_blocks/forms.py:267-274 | import: the parent's drafts are exactly copies, still drafts, of the master's drafts, and its published blocks are unchanged |
| FormCopies.ImportKeepsMaster | content_blocks/forms.py:267-274 | import leaves the master's relation and blocks unchanged |
| FormCopies.DeadWithin | content_blocks/forms.py:217 | the blocks deleted all belong to the parent |
| FormPublish.PreRenderSites | content_blocks/forms.py:212-216 | every Site when the sites framework is installed, `[None]` otherwise |
| FormPublish.PreRenderContextSite | content_blocks/forms.py:225-233 | the pre-render context names no request, so every pre-render uses the site-less key |
| FormPublish.PreRenderBlock | content_blocks/forms.py:225-233 | the pre-render of one copy fills its site-less key with the first site's render when it can be cached, overwrites nothing and touches no other key |
| FormPublish.SavePublishContentBlocksForm | content_blocks/forms.py:203-233 | publish computes `PublishRows`. The cache changes only at the copies' site-less keys and keeps every entry. Without pre-render it is unchanged; with it every cacheable copy has an entry |
| FormPublish.PublishLoop | content_blocks/forms.py:219-233 | the clone loop with its pre-render, under the same account of the cache |
| FormPublish.PublishLeavesSiteKeys | content_blocks/forms.py:225-233 | publish never writes a per-site key |
| AdminForms.ValidateChoices | content_blocks/admin_forms.py:31-47 | the check accepts exactly a JSON list whose every element is a two-element list, and rejects text that is not JSON |
| AdminForms.ValidChoicesAppend | content_blocks/admin_forms.py:31-47 | the empty list is valid, and a list stays valid exactly when each added element is a pair |
| AdminForms.Clean | content_blocks/admin_forms.py:63-100 | `clean` raises exactly for a nested field missing min or max. The field-type error is present exactly for a saved instance whose type changed |
| AdminForms.CleanNested | content_blocks/admin_forms.py:68-82 | nested: the min and the max error exactly when `min_num > max_num`, the required error exactly without nested templates |
| AdminForms.CleanChoices | content_blocks/admin_forms.py:84-90 | choice: "required" exactly for empty choices, "invalid" exactly for non-empty choices that do not validate |
| AdminForms.CleanModelChoice | content_blocks/admin_forms.py:92-95 | model choice: "required" exactly without a content type |
| AdminForms.CleanAccepts | content_blocks/admin_forms.py:63-100 | with the type unchanged, `clean` adds no error exactly when the type-specific rule holds |
| AdminForms.AdminSave | content_blocks/admin_forms.py:102-129 | the save keeps the tables consistent |
| AdminForms.SaveTemplateFieldAdminForm | content_blocks/admin_forms.py:102-129 | the save method, with its loop over blocks, computes `AdminSave` |
| AdminForms.AdminSaveCreates | content_blocks/admin_forms.py:102-129 | a new template field gives each block of its template exactly one new field of its type, and keeps every field |
| AdminForms.AdminSaveStores | content_blocks/admin_forms.py:106-118 | when it is saved, the template field is stored under its id and nothing else changes |
| AdminForms.AdminSaveUpdates | content_blocks/admin_forms.py:102-129 | saving an existing template field adds no field, and without commit changes nothing |
| TemplateSync.NewFieldRows | content_blocks/services/content_block_template.py:60-66 | the loop's rows: one new field per block, at consecutive new ids, with the type copied; existing rows kept |
| TemplateSync.AddNewContentBlockTemplateField | content_blocks/services/content_block_template.py:52-66 | the loop over blocks builds exactly those rows |
| TemplateSync.AddNewFieldsPerBlock | content_blocks/services/content_block_template.py:52-66 | every block of the template gets exactly one new field for it, with the type copied; the tables stay consistent |
| TemplateSync.AddFieldRowsValid | content_blocks/services/content_block_template.py:60-66 | adding the rows keeps the tables consistent and every existing field |
| TemplateSync.ImportStep | content_blocks/services/content_block_template.py:92-110 | one pass of the record loop keeps the tables consistent |
| TemplateSync.ImportStepTemplate | content_blocks/services/content_block_template.py:92-110 | other records are skipped; a template record is stored under its pk (or the next id), and that pk is recorded |
| TemplateSync.ImportStepFieldFails | content_blocks/services/content_block_template.py:103 | a template field record fails exactly when its foreign keys do not exist |
| TemplateSync.ImportStepFieldSaved | content_blocks/services/content_block_template.py:97-110 | a template field record is stored under its id, and that id is recorded |
| TemplateSync.ImportStepFieldRows | content_blocks/services/content_block_template.py:97-108 | fields are added to the blocks only for a template field that did not exist before, one per block |
| TemplateSync.ImportLoop | content_blocks/services/content_block_template.py:91-110 | the record loop, ended by the first error, keeps the tables consistent |
| TemplateSync.ImportLoopErrStays | content_blocks/services/content_block_template.py:91-110 | an error ends the whole import |
| TemplateSync.ImportSkipsOthers | content_blocks/services/content_block_template.py:93-95 | records of other models do not affect the import |
| TemplateSync.ImportTemplates | content_blocks/services/content_block_template.py:80-112 | an import that succeeds keeps the tables consistent |
| TemplateSync.ImportContentBlockTemplates | content_blocks/services/content_block_template.py:80-112 | the import method, with its loop and pk lists, computes `ImportTemplates`: the import with the cache refresh repaired (or caching disabled) |
| TemplateSync.ImportTemplatesExact | content_blocks/services/content_block_template.py:69-78 | afterwards an imported template's fields are exactly the imported ones, as imported; other templates' fields are unchanged |
| TemplateSync.ImportLoopFrame | content_blocks/services/content_block_template.py:91-110 | the loop only changes template fields it records |
| TemplateSync.ExportTemplates | content_blocks/services/content_block_template.py:37-41 | the selection (every template when it is empty), and exactly the template fields of those templates |
| TemplateSync.ExportRecords | content_blocks/services/content_block_template.py:42-48 | the exported stream holds the template records, then the field records |
| TemplateSync.ImportOwnRecords | content_blocks/services/content_block_template.py:80-112 | importing records that save back existing rows, naming every field of their templates, changes nothing |
| TemplateSync.ExportImportIdentity | content_blocks/services/content_block_template.py:28-112 | importing an export into the same database changes nothing |
| TemplateSync.ImportAsWritten | content_blocks/services/content_block_template.py:80-122 | as written, an import with caching enabled always fails and rolls back; with caching disabled it is `ImportTemplates` |
| TemplateSync.ExportImportAsWritten | content_blocks/services/content_block_template.py:119-122 | the database's own export imports back unchanged when caching is disabled, and fails with `TypeError` as written when it is enabled |
| Signals.MediaSlot | content_blocks/signals.py:53-61 | a media slot exactly for image, file and video |
| Signals.CleanupMedia | content_blocks/signals.py:42-81 | `delete` is called on a file only outside loaddata, for an instance with an id, of a media type |
| Signals.CleanupMediaSkips | content_blocks/signals.py:46-61 | during loaddata, for a new instance, or for another type, nothing is deleted |
| Signals.CleanupOnDelete | content_blocks/signals.py:63-81 | on delete, `delete` is called on the instance's own file exactly when it is set and no other row stores it |
| Signals.CleanupOnSave | content_blocks/signals.py:66-81 | on save, `delete` is called on the stored file exactly when the instance replaces it and no other row stores it |
| Signals.CleanupKeepsShared | content_blocks/signals.py:75-81 | a file another row stores is never deleted, nor one the instance keeps |
| Signals.Split | content_blocks/signals.py:36 | `split("/")` gives at least one piece and no piece holds a separator |
| Signals.JoinSplit | content_blocks/signals.py:36 | joining the pieces gives the name back |
| Signals.TemplateFilenameOf | content_blocks/signals.py:36 | the file name holds no separator |
| Signals.TemplateFilenameSuffix | content_blocks/signals.py:36 | the file name is the name's last component: the whole name, or what follows its last separator |
| Signals.BlocksWithFilename | content_blocks/signals.py:35-37 | exactly the blocks whose template has that file name, in id order |
| Signals.UpdateCacheTemplate | content_blocks/signals.py:27-39 | the repaired call: nothing during loaddata; otherwise `set_cache_all` limited to those blocks |
| Signals.UpdateCacheTemplateRefreshes | content_blocks/signals.py:27-39 | the repaired handler leaves every cacheable block of a registered parent model whose template has the saved file name holding its render for each site of its row |
| Signals.UpdateCacheTemplateAsWritten | content_blocks/signals.py:27-39 | as written, the handler raises `TypeError` exactly outside loaddata with caching enabled, and otherwise leaves the store unchanged |
| Views.SplitOn | content_blocks/views.py:193 | `split` gives at least one piece |
| Views.ParseEmpty | content_blocks/views.py:192-193 | an empty or missing positions string gives no ids |
| Views.SplitJoin | content_blocks/views.py:193 | splitting a join of pieces without the separator gives the pieces |
| Views.ParseSerialized | content_blocks/views.py:192-193 | parsing `cb[]=` + the ids joined by `&cb[]=` gives the ids in order |
| Views.SetPosition | content_blocks/views.py:195 | an update by id changes no row set; an unknown id changes nothing |
| Views.UpdatePosition | content_blocks/views.py:188-197 | the view's loop computes `ApplyPositions` of the parsed ids |
| Views.LastIndex | content_blocks/views.py:194-195 | the last list index that names a block, or none |
| Views.PositionsApplied | content_blocks/views.py:194-195 | each listed block ends at its last index in the list; every other block keeps its position |
| Views.PositionsFail | content_blocks/views.py:194-195 | an id that is not an integer stops the loop, keeping the updates before it |
| Views.ErrorStays | content_blocks/views.py:194-195 | after the error no later id is applied |
| Views.PositionsValid | content_blocks/views.py:194-195 | position updates keep the tables consistent |
| Views.ToggleVisible | content_blocks/views.py:203-209 | an unknown id fails. Otherwise `visible` is negated on that block and nothing else changes |
| Views.ToggleTwice | content_blocks/views.py:207-209 | two toggles restore the tables |
| Views.ToggleValid | content_blocks/views.py:207-209 | a toggle keeps the tables consistent |

## Left out

- Tables.Valid: it requires a nested block's id to exceed the id of the block owning its field. The schema does not enforce this; every modelled insert keeps it, and Clone.ChildrenAfterOwner draws the clone's termination from it. Rows edited by other means can form a cyclic nesting. On a cycle `clone_content_block` (content_blocks/services/content_block.py:336-339) recurses until Python raises `RecursionError`; that case is not modelled.
- FieldTypes.ContextValueOf: a model choice yields the reference its two columns name. The object is not looked up, so a reference to a deleted row is not turned into None as the generic foreign key does.
- Signals.CleanupOnDelete: the model says when `delete(save=False)` is called. Calling it on the empty default file does nothing in Django; the model does not tell that apart.

- **Persistence.** The Django ORM is replaced by the value `Tables`. Query order is ascending id, creation order in every queryset. Positions and `Meta.ordering` are not modelled as sort orders.
- **Transactions.** `transaction.atomic()` is modelled as "an error returns no tables". Concurrency, cache stampedes and `cached_property` memoisation are not modelled. The `context` memo that `set_cache_content_block` clears is not modelled, so it is always fresh.
- **Templates.** The engine (`get_template`, `render_to_string`, `mark_safe`) is two opaque functions, `found` and `render`; `mark_safe` is the identity.
- **The cache backend.** It is a string map. Timeouts are not modelled; `cache_timeout` is only a context entry.
- **Sites.** Sites are named by their ids and passed in as parameters; the `Site` table is not modelled.
- **The parent-model registry.** `parent_models` is called with no argument at content_blocks/services/content_block.py:215, 272 and 314, but takes one. The bulk operations model the repaired call and take the registry and the base class as parameters. The written behaviour is under "## Findings".
- CacheBulk.GetOrSetCacheAll: models the repaired call. As written it raises `TypeError` whenever caching is enabled (Cache.AllAsWritten).
- CacheBulk.SetCacheAll: models the repaired call. As written it raises `TypeError` whenever caching is enabled (Cache.AllAsWritten).
- CacheBulk.DeleteCacheAll: models the repaired call. As written it raises `TypeError` on every call (Cache.AllAsWritten).
- Signals.UpdateCacheTemplate: models the repaired call. As written the handler raises `TypeError` outside loaddata whenever caching is enabled (Signals.UpdateCacheTemplateAsWritten).
- TemplateSync.ImportContentBlockTemplates: the result is the import with caching disabled or the cache refresh repaired. As written, with caching enabled, the refresh raises `TypeError` inside the transaction and the whole import rolls back (TemplateSync.ImportAsWritten). The refreshed cache itself is not modelled.
- Render.RenderHtml: `render_to_string` also receives the original `request` as its own argument (content_blocks/services/content_block.py:92), which is None when a DummyRequest was put in the context. The model renders from the context alone, where `Request(siteAttr)` stands for a real request and a dummy alike, so context processors that need a real request are not modelled.
- Render.RenderContext: Python adds the two keys to the caller's own dict when it is truthy, and `render_html` then adds `request` to that same dict. The model returns the result as a new value, so the caller's dict is not shown to change. No modelled caller reuses its dict afterwards.
- Forms.CreateContentBlock: a `fuel` parameter stands for Python's recursion limit. Running out gives `RecursionError`; the depth of that limit is not modelled.
- **The block `name`.** It is assigned at content_blocks/forms.py:68 and 194, but ContentBlock has no such column in models.py, so the model does not store it. `ContentBlockForm.save` stores the CSS class as text.
- FormSaves.SaveContentBlockForm: the field dict is visited in an arbitrary key order, because the result does not depend on the order.
- FormCopies.ReplaceShape: the replace lemmas assume every block in a parent relation is top-level, as the forms create them. The import lemmas also assume the parent's and master's relations are disjoint.
- FormPublish.SavePublishContentBlocksForm: the contract does not state render counts or the HTML of later entries. It states which keys change and that each cacheable copy gets its entry.
- **Render counts of the bulk methods.** The `*_per_site`, `*_parent_model` and `*_all` methods only state that the render count does not go down.
- Forms.CreateContentBlock: the template fields are the rows as the loop's queryset loaded them at the start, not re-read after each nested create.
- **After an import.** The `reorder` command that renumbers template positions is not modelled.
- TemplateSync.PutTemplate: an insert at an explicit pk past the counter moves the counter beyond it. The database's own sequence handling is not modelled.
- AdminForms.AdminSave: a field added to an existing block copies the field type but not the model-choice content type. content_blocks/admin_forms.py:121-127 and content_blocks/services/content_block_template.py:62-66 copy none either. `create_content_block` does copy it.
- **JSON and the deserialiser.** `json.loads` results and deserialised records are parameters. A record's natural key arrives resolved to a pk, or to None when no row has it. The template-import file form and the `post_import` signal are not modelled.
- Views.ToPk: `int()` accepts an optional `-` and ASCII digits; surrounding whitespace, `+`, `_` separators and non-ASCII decimal digits (such as Arabic-Indic digits, which Python reads as numbers) are treated as a `ValueError`.
- Signals.CleanupMedia: the decision that a file goes is modelled. Deleting it from storage is I/O left out. Two files are equal when their stored values are equal.
- AdminForms.Clean: `cleaned_data` entries that failed their own field validation are modelled as missing values.
- Views.UpdatePosition: the view runs outside a transaction, so the updates before an invalid id stay.
- FormPublish.PreRenderBlock: the site-less-key behaviour at content_blocks/forms.py:225-233 is modelled as written. The site is passed as a plain context key, which `RenderServices.site` never reads.
- **HTTP and admin code.** The views other than the positions update and the toggle are not modelled: logging, HTML responses and permission decorators. Neither are the admin classes, template tags, widgets, form-field construction, management commands and JavaScript.

## Findings

`ParentServices.parent_models` takes one required argument, the abstract parent class (content_blocks/services/content_block_parent.py:6). Three call sites pass none, so Python raises `TypeError` at each before the cache is touched. The model keeps each operation as written next to the repaired call, and every other part of the model uses the repaired call.

| source | as written | input that shows it | evidently intended | confidence | as-written member | corrected member |
|---|---|---|---|---|---|---|
| content_blocks/services/content_block.py:215 | `get_or_set_cache_all` calls `parent_models()` with no argument | any call with CONTENT_BLOCKS_DISABLE_CACHE false raises `TypeError` | get-or-set every cacheable block of every registered parent model | high; not executed | Cache.AllAsWrittenRaises | CacheBulk.GetOrSetCacheAll |
| content_blocks/services/content_block.py:272 | `set_cache_all` calls `parent_models()` with no argument | any call with CONTENT_BLOCKS_DISABLE_CACHE false raises `TypeError` | set the cache of every cacheable block of the queryset | high; not executed | Cache.AllAsWrittenRaises | CacheBulk.SetCacheAll |
| content_blocks/services/content_block.py:314 | `delete_cache_all` calls `parent_models()` with no argument | every call raises `TypeError`, whatever the cache setting | delete the cache keys of every cacheable block | high; not executed | Cache.AllAsWrittenRaises | CacheBulk.DeleteCacheAll |
| content_blocks/signals.py:39 | `update_cache_template` calls `set_cache_all(queryset=...)`, which reaches the call at line 272 | saving a database template outside loaddata, with CONTENT_BLOCKS_DISABLE_CACHE false, raises `TypeError` | refresh the cache of the blocks using that template file | high; not executed | Signals.UpdateCacheTemplateAsWritten | Signals.UpdateCacheTemplate |
| content_blocks/services/content_block_template.py:119-122 | inside `transaction.atomic()` the import runs `set_content_blocks_cache`, which calls `set_cache_all()` | importing the database's own export, with CONTENT_BLOCKS_DISABLE_CACHE false, raises `TypeError` and rolls the import back | the import commits and the database is unchanged | high; not executed | TemplateSync.ExportImportAsWritten | TemplateSync.ExportImportIdentity |

What the repaired calls achieve is proved in `cache_cover.dfy`: CacheCover.AllFoldFills for `get_or_set_cache_all`, CacheCover.AllFoldRefreshes for `set_cache_all`, CacheCover.AllFoldDeletes for `delete_cache_all`, and Signals.UpdateCacheTemplateRefreshes for `update_cache_template`.
