/** RenderServices: the template context a block is rendered with, the
    site a context names, and `render_html`. The template engine is opaque:
    `found` says whether the loader finds a template and `render` turns a
    template and a context into HTML. */
module Render {
  import opened Wrappers
  import opened FieldTypes
  import opened Tables
  import opened Models

  /** What a request object offers through `getattr(request, "site", None)`:
      no such attribute, or the attribute's value (a site or None). */
  datatype SiteAttr = NoSiteAttr | SiteAttr(site: Option<nat>)

  /** The values a template context holds in the modelled code. */
  datatype RValue =
    | NoneValue
    | IntValue(i: int)
    | TextValue(s: string)
    | SiteValue(site: nat)
    | Request(siteAttr: SiteAttr)                         // an HTTP or dummy request
    | BlockContext(context: map<string, ContextValue>)    // ContentBlock.context
    | BlockObject(block: nat)                             // the ContentBlock itself

  type Ctx = map<string, RValue>

  const RequestKey: string := "request"
  const BlockKey: string := "content_block"
  const BlockObjectKey: string := "content_block_object"

  /** The template engine. Each call of `RenderToString` is counted, so a
      caller can state how many renders it caused. */
  class TemplateEngine {
    const found: string -> bool
    const render: (string, Ctx) -> string
    var renders: nat

    constructor(found: string -> bool, render: (string, Ctx) -> string)
      ensures this.found == found && this.render == render && renders == 0
    {
      this.found := found;
      this.render := render;
      renders := 0;
    }

    /** `render_to_string`. */
    method RenderToString(template: string, ctx: Ctx) returns (html: string)
      modifies this
      ensures html == render(template, ctx)
      ensures renders == old(renders) + 1
    {
      html := render(template, ctx);
      renders := renders + 1;
    }
  }

  /** `context.get("request")`, with None for a missing key. */
  function RequestOf(ctx: Ctx): RValue {
    if RequestKey in ctx then ctx[RequestKey] else NoneValue
  }

  /** `RenderServices.site`: None for a falsy context (None or empty), and
      otherwise the `site` attribute of the context's request, None when
      there is no request or it has no such attribute. */
  function SiteOf(ctx: Option<Ctx>): (r: Option<nat>)
    ensures r.Some? ==> ctx.Some? && RequestOf(ctx.value) == Request(SiteAttr(r))
  {
    if ctx.None? || ctx.value == map[] then None
    else match RequestOf(ctx.value)
      case Request(SiteAttr(s)) => s
      case _ => None
  }

  /** The three ways to get no site, and the one way to get one. */
  lemma SiteOfCases(ctx: Option<Ctx>)
    ensures ctx.None? || ctx == Some(map[]) ==> SiteOf(ctx) == None
    ensures ctx.Some? && RequestKey !in ctx.value ==> SiteOf(ctx) == None
    ensures ctx.Some? && RequestOf(ctx.value) in {Request(NoSiteAttr), Request(SiteAttr(None))} ==> SiteOf(ctx) == None
    ensures ctx.Some? && ctx.value != map[] && RequestOf(ctx.value).Request? && RequestOf(ctx.value).siteAttr.SiteAttr? ==>
      SiteOf(ctx) == RequestOf(ctx.value).siteAttr.site
  {
  }

  /** The caller's context, with a falsy one replaced by a new empty dict. */
  function CallerContext(ctx: Option<Ctx>): Ctx {
    if ctx.None? then map[] else ctx.value
  }

  /** `RenderServices.context`: the caller's keys, plus the block's context
      under "content_block" and the block under "content_block_object".
      Python writes the two keys into the caller's own dict when it is
      truthy; the model returns the updated dict as a new value and does not
      model the caller seeing the change. */
  function RenderContext(t: Tables, b: nat, ctx: Option<Ctx>): (r: Ctx)
    requires Valid(t) && b in t.blocks
    ensures r.Keys == CallerContext(ctx).Keys + {BlockKey, BlockObjectKey}
    ensures r[BlockKey] == BlockContext(Context(t, b))
    ensures r[BlockObjectKey] == BlockObject(b)
    ensures forall k :: k in CallerContext(ctx) && k != BlockKey && k != BlockObjectKey ==>
      r[k] == CallerContext(ctx)[k]
  {
    CallerContext(ctx)[BlockKey := BlockContext(Context(t, b))][BlockObjectKey := BlockObject(b)]
  }

  /** The context `render_html` hands to the engine: a DummyRequest holding
      the site is added only when the context has no request and a site was
      given. */
  function FinalContext(t: Tables, b: nat, ctx: Option<Ctx>, site: Option<nat>): Ctx
    requires Valid(t) && b in t.blocks
  {
    var rc := RenderContext(t, b, ctx);
    if RequestOf(rc) == NoneValue && site.Some? then rc[RequestKey := Request(SiteAttr(site))] else rc
  }

  /** The dummy request is added exactly when needed, names the given site
      so that `RenderServices.site` reads it back, and a caller's request is
      never replaced. */
  lemma FinalContextRequest(t: Tables, b: nat, ctx: Option<Ctx>, site: Option<nat>)
    requires Valid(t) && b in t.blocks
    ensures var rc := RenderContext(t, b, ctx); var fc := FinalContext(t, b, ctx, site);
      && (RequestOf(rc) == NoneValue && site.Some? ==>
            RequestOf(fc) == Request(SiteAttr(site)) && SiteOf(Some(fc)) == site)
      && (RequestOf(rc) != NoneValue || site.None? ==> fc == rc)
      && fc.Keys >= rc.Keys
      && (forall k :: k in rc && k != RequestKey ==> fc[k] == rc[k])
  {
    var rc := RenderContext(t, b, ctx);
    if RequestOf(rc) == NoneValue && site.Some? {
      assert BlockKey in rc;
    }
  }

  /** The HTML `render_html` returns: "" when the block cannot be rendered,
      otherwise the engine's output for the block's template and the final
      context. */
  function HtmlOf(found: string -> bool, render: (string, Ctx) -> string,
                  t: Tables, b: nat, ctx: Option<Ctx>, site: Option<nat>): string
    requires Valid(t) && b in t.blocks
  {
    if !CanRender(found, t, b) then "" else render(BlockTemplate(t, b).value, FinalContext(t, b, ctx, site))
  }

  /** `render_html`: renders once when the block can be rendered and not at
      all otherwise. */
  method RenderHtml(engine: TemplateEngine, t: Tables, b: nat, ctx: Option<Ctx>, site: Option<nat>)
    returns (html: string)
    requires Valid(t) && b in t.blocks
    modifies engine
    ensures html == HtmlOf(engine.found, engine.render, t, b, ctx, site)
    ensures engine.renders == old(engine.renders) + (if CanRender(engine.found, t, b) then 1 else 0)
    ensures !CanRender(engine.found, t, b) ==> html == ""
  {
    if !CanRender(engine.found, t, b) {
      return "";
    }
    var renderContext := RenderContext(t, b, ctx);
    var request := RequestOf(renderContext);
    if request == NoneValue && site.Some? {
      renderContext := renderContext[RequestKey := Request(SiteAttr(site))];
    }
    html := engine.RenderToString(BlockTemplate(t, b).value, renderContext);
  }
}
