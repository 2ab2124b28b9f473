/** Render-time resolution of a `ReusableContent` block: which blocks it
    shows. */
module ReusableContentRender {
  import opened Wrappers
  import opened ContentModel
  import ReusableContentConfig

  /** `overrideContent ? content : typeof template === 'object' ? template?.content : null`.
      A `null` template has type `object` too, and `null?.content` is `undefined`. */
  function ContentToRender(overrideContent: bool, content: BlocksValue, template: TemplateRef): (r: BlocksValue)
    ensures overrideContent ==> r == content
    ensures !overrideContent && template.RefDoc? ==> r == template.doc.content
    ensures !overrideContent && (template.RefId? || template.RefMissing?) ==> r == Null
    ensures !overrideContent && template.RefNull? ==> r == Missing
  {
    if overrideContent then content
    else
      match template
      case RefDoc(doc) => doc.content
      case RefNull => Missing
      case _ => Null
  }

  /** The blocks handed to the block renderer, or `None` when the component
      renders nothing: only a present, non-empty array is rendered. */
  function RenderedBlocks(overrideContent: bool, content: BlocksValue, template: TemplateRef): (r: Option<seq<Block>>)
    ensures r.Some? <==> HasRows(ContentToRender(overrideContent, content, template))
    ensures r.Some? ==> r.value == ContentToRender(overrideContent, content, template).blocks
  {
    var resolved := ContentToRender(overrideContent, content, template);
    if resolved.Blocks? && |resolved.blocks| > 0 then Some(resolved.blocks) else None
  }

  /** In defer mode a block with a populated template renders what the
      template's own content renders, whatever the block stores. */
  lemma DeferRendersTemplate(content: BlocksValue, t: Template, anyRef: TemplateRef)
    ensures RenderedBlocks(false, content, RefDoc(t)) == RenderedBlocks(true, t.content, anyRef)
  {
  }

  /** A block whose checkbox was just set and whose content the hook copied
      from template `doc` keeps rendering that copy however the template is
      edited afterwards. */
  lemma OverrideSnapshotIsolated(template: TemplateRef, content: BlocksValue,
                                 lookup: TemplateRef -> Option<Template>,
                                 doc: Template, later: Template)
    requires ReusableContentConfig.HookLookup(true, template, content, true).Some?
    requires lookup(template) == Some(doc) && !doc.content.Missing?
    ensures var stored := ReusableContentConfig.BeforeChangeContent(true, template, content, true, lookup);
            ContentToRender(true, stored, RefDoc(later)) == doc.content
  {
  }

  /** A block whose checkbox was cleared stores no content and so renders its
      template's current content. */
  lemma ClearedRendersTemplate(template: TemplateRef, content: BlocksValue, collectionRegistered: bool,
                               lookup: TemplateRef -> Option<Template>, t: Template)
    ensures var stored := ReusableContentConfig.BeforeChangeContent(false, template, content, collectionRegistered, lookup);
            stored == Null && RenderedBlocks(false, stored, RefDoc(t)) == RenderedBlocks(true, t.content, RefDoc(t))
  {
  }
}
