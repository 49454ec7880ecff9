/** The database rows the core reads and writes, as arenas keyed by row id,
    with the id counters that stand for the tables' autoincrement sequences.

    A block's `parent` is the id of the nested field that holds it; a field's
    `contentBlock` is the id of the block it belongs to. A queryset is a
    sequence of row ids; every queryset built here lists rows in ascending id
    order, which is creation order. */
module Tables {
  import opened Wrappers
  import opened FieldTypes

  /** ContentBlock. */
  datatype Block = Block(
    template: nat,
    parent: Option<nat>,
    position: nat,
    visible: bool,
    draft: bool,
    saved: bool,
    cssClass: string)

  /** ContentBlockTemplate. */
  datatype Template = Template(
    name: string,
    templateFilename: string,
    noCache: bool,
    position: nat,
    visible: bool)

  /** ContentBlockTemplateField. `nestedTemplates` is the many-to-many
      relation in template order, so its head is what `first()` returns. */
  datatype TemplateField = TemplateField(
    template: nat,
    fieldType: FieldType,
    key: string,
    position: nat,
    required: bool,
    nestedTemplates: seq<nat>,
    minNum: nat,
    maxNum: nat,
    choices: string,
    modelChoiceContentType: Option<nat>)

  /** What a parent's `content_blocks_sites_field` attribute holds: no such
      attribute, None, one Site (a non-iterable value) or an iterable of
      Sites. Sites are named by their ids. */
  datatype SitesField =
    | MissingAttribute
    | NoSites
    | SingleSite(site: nat)
    | SiteCollection(sites: seq<nat>)

  /** A row of a ContentBlockParentModel subclass: its model's name, its
      `content_blocks` many-to-many relation and its sites field. */
  datatype Parent = Parent(model: string, blocks: set<nat>, sitesField: SitesField)

  datatype Tables = Tables(
    blocks: map<nat, Block>,
    fields: map<nat, Field>,
    templates: map<nat, Template>,
    templateFields: map<nat, TemplateField>,
    parents: map<nat, Parent>,
    nextBlock: nat,
    nextField: nat,
    nextTemplate: nat,
    nextTemplateField: nat,
    nextParent: nat)

  /** Referential integrity, ids below their counters, and the order that
      autoincrement ids give a block tree: a block is always created after
      the block owning its parent field. */
  ghost predicate Valid(t: Tables) {
    && (forall c :: c in t.blocks ==> c < t.nextBlock)
    && (forall f :: f in t.fields ==> f < t.nextField)
    && (forall k :: k in t.templates ==> k < t.nextTemplate)
    && (forall k :: k in t.templateFields ==> k < t.nextTemplateField)
    && (forall p :: p in t.parents ==> p < t.nextParent)
    && (forall c :: c in t.blocks ==>
          && t.blocks[c].template in t.templates
          && (t.blocks[c].parent.Some? ==>
                && t.blocks[c].parent.value in t.fields
                && t.fields[t.blocks[c].parent.value].contentBlock < c))
    && (forall f :: f in t.fields ==>
          && t.fields[f].contentBlock in t.blocks
          && t.fields[f].templateField in t.templateFields)
    && (forall k :: k in t.templateFields ==>
          && t.templateFields[k].template in t.templates
          && (forall n :: n in t.templateFields[k].nestedTemplates ==> n in t.templates))
    && (forall p :: p in t.parents ==> t.parents[p].blocks <= t.blocks.Keys)
  }

  /** The members of `s` below `n`, in ascending order. */
  function Enumerate(n: nat, s: set<nat>): (r: seq<nat>)
    ensures forall x :: x in r <==> x in s && x < n
    ensures Increasing(r)
  {
    if n == 0 then []
    else
      var p := Enumerate(n - 1, s);
      if n - 1 in s then
        assert forall i :: 0 <= i < |p| ==> p[i] < n - 1 by {
          forall i | 0 <= i < |p| ensures p[i] < n - 1 { assert p[i] in p; }
        }
        p + [n - 1]
      else p
  }

  /** The members of a queryset. */
  function Ids(qs: seq<nat>): set<nat> {
    set c | c in qs
  }

  /** A strictly increasing list has no repeated id. */
  predicate Increasing(qs: seq<nat>) {
    forall i, j :: 0 <= i < j < |qs| ==> qs[i] < qs[j]
  }

  /** `ContentBlock.objects.all()`. */
  function AllBlocks(t: Tables): (r: seq<nat>)
    ensures forall c :: c in r <==> c in t.blocks && c < t.nextBlock
    ensures Increasing(r)
  {
    Enumerate(t.nextBlock, t.blocks.Keys)
  }

  /** `content_block.content_block_fields.all()`. */
  function FieldsOf(t: Tables, b: nat): (r: seq<nat>)
    ensures forall f :: f in r <==> f in t.fields && t.fields[f].contentBlock == b && f < t.nextField
    ensures Increasing(r)
  {
    Enumerate(t.nextField, set f | f in t.fields && t.fields[f].contentBlock == b)
  }

  /** `field.content_blocks.all()`: the blocks nested in field `f`. */
  function ChildrenOf(t: Tables, f: nat): (r: seq<nat>)
    ensures forall c :: c in r <==> c in t.blocks && t.blocks[c].parent == Some(f) && c < t.nextBlock
    ensures Increasing(r)
  {
    Enumerate(t.nextBlock, set c | c in t.blocks && t.blocks[c].parent == Some(f))
  }

  /** `template.content_block_template_fields.all()`. */
  function TemplateFieldsOf(t: Tables, tpl: nat): (r: seq<nat>)
    ensures forall k :: k in r <==>
      k in t.templateFields && t.templateFields[k].template == tpl && k < t.nextTemplateField
    ensures Increasing(r)
  {
    Enumerate(t.nextTemplateField, set k | k in t.templateFields && t.templateFields[k].template == tpl)
  }

  /** `ContentBlock.objects.filter(content_block_template=tpl)`. */
  function BlocksOfTemplate(t: Tables, tpl: nat): (r: seq<nat>)
    ensures forall c :: c in r <==> c in t.blocks && t.blocks[c].template == tpl && c < t.nextBlock
    ensures Increasing(r)
  {
    Enumerate(t.nextBlock, set c | c in t.blocks && t.blocks[c].template == tpl)
  }

  /** `parent.content_blocks.all()`. */
  function ParentBlocks(t: Tables, p: nat): (r: seq<nat>)
    requires p in t.parents
    ensures forall c :: c in r <==> c in t.parents[p].blocks && c < t.nextBlock
    ensures Increasing(r)
  {
    Enumerate(t.nextBlock, t.parents[p].blocks)
  }

  /** `Model.objects.all()` for the parent model named `model`. */
  function ParentsOfModel(t: Tables, model: string): (r: seq<nat>)
    ensures forall p :: p in r <==> p in t.parents && t.parents[p].model == model && p < t.nextParent
    ensures Increasing(r)
  {
    Enumerate(t.nextParent, set p | p in t.parents && t.parents[p].model == model)
  }

  /** `Block.objects.create(...)`: the row gets the next id. */
  function InsertBlock(t: Tables, row: Block): Tables {
    t.(blocks := t.blocks[t.nextBlock := row], nextBlock := t.nextBlock + 1)
  }

  /** `Field.objects.create(...)`: the row gets the next id. */
  function InsertField(t: Tables, row: Field): Tables {
    t.(fields := t.fields[t.nextField := row], nextField := t.nextField + 1)
  }

  /** A new block row keeps the rows consistent when its template and its
      parent field exist; it takes a fresh id and changes nothing else. */
  lemma InsertBlockValid(t: Tables, row: Block)
    requires Valid(t) && row.template in t.templates
    requires row.parent.Some? ==> row.parent.value in t.fields
    ensures Valid(InsertBlock(t, row))
    ensures t.nextBlock !in t.blocks
  {
    var r := InsertBlock(t, row);
    if row.parent.Some? {
      assert t.fields[row.parent.value].contentBlock in t.blocks;
    }
    assert forall c :: c in r.blocks ==> c == t.nextBlock || c in t.blocks;
  }

  /** A new field row keeps the rows consistent when its block and its
      template field exist; it takes a fresh id. */
  lemma InsertFieldValid(t: Tables, row: Field)
    requires Valid(t) && row.contentBlock in t.blocks && row.templateField in t.templateFields
    ensures Valid(InsertField(t, row))
    ensures t.nextField !in t.fields
  {
  }

  /** Rewriting the columns of existing rows keeps the rows consistent
      when no field changes its block or template field and no block its
      template or parent. */
  lemma ColumnsRewritten(t: Tables, r: Tables)
    requires Valid(t) && r == t.(fields := r.fields, blocks := r.blocks)
    requires r.fields.Keys == t.fields.Keys && r.blocks.Keys == t.blocks.Keys
    requires forall f :: f in t.fields ==>
      r.fields[f].contentBlock == t.fields[f].contentBlock && r.fields[f].templateField == t.fields[f].templateField
    requires forall c :: c in t.blocks ==>
      r.blocks[c].template == t.blocks[c].template && r.blocks[c].parent == t.blocks[c].parent
    ensures Valid(r)
  {
  }

  /** The key of a field: its template field's key. */
  function Key(t: Tables, f: nat): string
    requires f in t.fields && t.fields[f].templateField in t.templateFields
  {
    t.templateFields[t.fields[f].templateField].key
  }

  /** Whether a field's template field is of the nested type. */
  predicate IsNestedField(t: Tables, f: nat)
    requires f in t.fields && t.fields[f].templateField in t.templateFields
  {
    t.templateFields[t.fields[f].templateField].fieldType == NestedField
  }

  // ---------------------------------------------------------------------
  // Deletion with the cascades the foreign keys declare

  /** Whether deleting the blocks `rb` and the template fields `rtf` removes
      block `c`: it is one of them, or its parent field goes (because that
      field's template field goes or its owning block goes). */
  predicate DoomedBlock(t: Tables, rb: set<nat>, rtf: set<nat>, c: nat)
    decreases c
  {
    || c in rb
    || (&& c in t.blocks && t.blocks[c].parent.Some?
        && var f := t.blocks[c].parent.value;
           && f in t.fields
           && (|| t.fields[f].templateField in rtf
               || (t.fields[f].contentBlock < c && DoomedBlock(t, rb, rtf, t.fields[f].contentBlock))))
  }

  /** A field goes with its template field or with its block. */
  predicate DoomedField(t: Tables, rb: set<nat>, rtf: set<nat>, f: nat) {
    f in t.fields && (t.fields[f].templateField in rtf || DoomedBlock(t, rb, rtf, t.fields[f].contentBlock))
  }

  /** The rows left after deleting the blocks `rb` and the template fields
      `rtf`: every doomed block and field goes, and so do the many-to-many
      rows that point at a doomed block. */
  function Delete(t: Tables, rb: set<nat>, rtf: set<nat>): Tables {
    t.(blocks := map c | c in t.blocks && !DoomedBlock(t, rb, rtf, c) :: t.blocks[c],
       fields := map f | f in t.fields && !DoomedField(t, rb, rtf, f) :: t.fields[f],
       templateFields := map k | k in t.templateFields && k !in rtf :: t.templateFields[k],
       parents := map p | p in t.parents ::
         t.parents[p].(blocks := set c | c in t.parents[p].blocks && !DoomedBlock(t, rb, rtf, c)))
  }

  /** Deleting keeps the rows consistent; the named rows are gone, every
      other row that survives is unchanged, and the counters stay. */
  lemma DeletePreservesValid(t: Tables, rb: set<nat>, rtf: set<nat>)
    requires Valid(t)
    ensures Valid(Delete(t, rb, rtf))
    ensures forall c :: c in rb ==> c !in Delete(t, rb, rtf).blocks
    ensures forall k :: k in rtf ==> k !in Delete(t, rb, rtf).templateFields
    ensures forall f :: f in t.fields && t.fields[f].templateField in rtf ==> f !in Delete(t, rb, rtf).fields
    ensures Delete(t, rb, rtf).templates == t.templates
  {
    var r := Delete(t, rb, rtf);
    forall c | c in r.blocks && r.blocks[c].parent.Some?
      ensures r.blocks[c].parent.value in r.fields
    {
      var f := t.blocks[c].parent.value;
      if DoomedField(t, rb, rtf, f) {
        assert DoomedBlock(t, rb, rtf, c);
        assert false;
      }
    }
  }

  /** Deleting nothing removes nothing. */
  lemma {:induction false} NothingDoomed(t: Tables, c: nat)
    ensures !DoomedBlock(t, {}, {}, c)
    decreases c
  {
    if c in t.blocks && t.blocks[c].parent.Some? {
      var f := t.blocks[c].parent.value;
      if f in t.fields && t.fields[f].contentBlock < c {
        NothingDoomed(t, t.fields[f].contentBlock);
      }
    }
  }

  lemma DeleteNothing(t: Tables)
    ensures Delete(t, {}, {}) == t
  {
    forall c ensures !DoomedBlock(t, {}, {}, c) { NothingDoomed(t, c); }
    var r := Delete(t, {}, {});
    assert r.blocks == t.blocks;
    assert r.fields == t.fields;
    assert r.templateFields == t.templateFields;
    forall p | p in t.parents ensures r.parents[p] == t.parents[p] {
      assert r.parents[p].blocks == t.parents[p].blocks;
    }
    assert r.parents == t.parents;
  }

  /** A block tree's root is a block with no parent: it goes only when it
      is named directly. */
  lemma TopLevelDoomedOnlyIfNamed(t: Tables, rb: set<nat>, rtf: set<nat>, c: nat)
    requires c in t.blocks && t.blocks[c].parent.None?
    ensures DoomedBlock(t, rb, rtf, c) <==> c in rb
  {
  }

  /** `ContentBlockParentModel.delete`: the parent's blocks are deleted
      (with their fields and nested blocks), then the parent row. */
  ghost function DeleteParent(t: Tables, p: nat): (r: Tables)
    requires p in t.parents
  {
    var d := Delete(t, t.parents[p].blocks, {});
    d.(parents := map q | q in d.parents && q != p :: d.parents[q])
  }

  /** After deleting a parent its row and all its blocks are gone, no other
      parent row disappears, and the rows stay consistent. */
  lemma DeleteParentRemovesBlocks(t: Tables, p: nat)
    requires Valid(t) && p in t.parents
    ensures Valid(DeleteParent(t, p))
    ensures p !in DeleteParent(t, p).parents
    ensures forall c :: c in t.parents[p].blocks ==> c !in DeleteParent(t, p).blocks
    ensures forall q :: q in t.parents && q != p ==> q in DeleteParent(t, p).parents
  {
    DeletePreservesValid(t, t.parents[p].blocks, {});
  }
}
