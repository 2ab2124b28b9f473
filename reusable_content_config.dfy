/** The `ReusableContent` block as configured in `src/`: a `template`
    relationship, an `overrideContent` checkbox whose `beforeChange` hook
    synchronises `content`, and the admin conditions that show or hide the
    two dependent fields. */
module ReusableContentConfig {
  import opened Wrappers
  import opened ContentModel

  /** The sibling fields of one block as the hook sees them. The hook mutates
      this object in place. */
  class SiblingData {
    var template: TemplateRef
    var overrideContent: bool
    var content: BlocksValue

    constructor (template: TemplateRef, overrideContent: bool, content: BlocksValue)
      ensures this.template == template
      ensures this.overrideContent == overrideContent
      ensures this.content == content
    {
      this.template := template;
      this.overrideContent := overrideContent;
      this.content := content;
    }
  }

  /** The identifier the hook passes to `findByID`, if it looks a template up
      at all: only when the checkbox is being set, a template is chosen, the
      `templates` collection exists and the block has no content yet. */
  function HookLookup(value: bool, template: TemplateRef, content: BlocksValue,
                      collectionRegistered: bool): (r: Option<TemplateRef>)
    ensures r.Some? <==> value && RefTruthy(template) && collectionRegistered && NoRows(content)
    ensures r.Some? ==> r.value == template
  {
    if value && RefTruthy(template) && collectionRegistered && NoRows(content)
    then Some(template) else None
  }

  /** The value of `siblingData.content` after the hook has run. `lookup`
      stands for `payload.findByID` on the `templates` collection. */
  function BeforeChangeContent(value: bool, template: TemplateRef, content: BlocksValue,
                               collectionRegistered: bool,
                               lookup: TemplateRef -> Option<Template>): (r: BlocksValue)
    // unchecking always clears the content, whatever it held
    ensures !value ==> r == Null
    // checking with no template chosen, with content already there, or without
    // the collection leaves the content alone
    ensures value && !RefTruthy(template) ==> r == content
    ensures value && HasRows(content) ==> r == content
    ensures value && !collectionRegistered ==> r == content
    // the populate case copies the looked-up document's `content`, exactly
    ensures HookLookup(value, template, content, collectionRegistered).Some? ==>
              match lookup(template)
              case Some(doc) => r == (if doc.content.Missing? then content else doc.content)
              case None => r == content
    // the hook never invents content: it keeps it, clears it or copies a template's
    ensures r == content || r == Null ||
            (lookup(template).Some? && r == lookup(template).value.content)
  {
    if value then
      match HookLookup(value, template, content, collectionRegistered)
      case None => content
      case Some(id) =>
        match lookup(id)
        case Some(doc) => if doc.content != Missing then doc.content else content
        case None => content
    else
      Null
  }

  /** The `beforeChange` hook on `overrideContent`. It writes
      `siblingData.content` and nothing else, and returns the identifier it
      looked up (the one call it makes to the data layer), if any. */
  method OverrideContentBeforeChange(value: bool, siblingData: SiblingData,
                                     collectionRegistered: bool,
                                     lookup: TemplateRef -> Option<Template>)
    returns (lookedUp: Option<TemplateRef>)
    modifies siblingData`content
    ensures siblingData.content ==
              BeforeChangeContent(value, old(siblingData.template), old(siblingData.content),
                                  collectionRegistered, lookup)
    ensures lookedUp == HookLookup(value, old(siblingData.template), old(siblingData.content),
                                   collectionRegistered)
    ensures siblingData.template == old(siblingData.template)
    ensures siblingData.overrideContent == old(siblingData.overrideContent)
  {
    lookedUp := None;
    if value {
      if RefTruthy(siblingData.template) {
        if collectionRegistered && NoRows(siblingData.content) {
          lookedUp := Some(siblingData.template);
          var templateDoc := lookup(siblingData.template);
          if templateDoc.Some? && templateDoc.value.content != Missing {
            siblingData.content := templateDoc.value.content;
          }
        }
      }
    } else {
      siblingData.content := Null;
    }
  }

  /** Admin condition of `overrideContent`: shown once a template is chosen. */
  function OverrideContentVisible(template: TemplateRef): (r: bool)
    ensures r <==> (template.RefId? && template.id != "") || template.RefDoc?
  {
    RefTruthy(template)
  }

  /** Admin condition of `content`: `overrideContent && content && content.length >= 0`.
      The length test always holds, so the field shows exactly when the
      checkbox is set and `content` is an array, even an empty one. */
  function ContentVisible(overrideContent: bool, content: BlocksValue): (r: bool)
    ensures r <==> overrideContent && content.Blocks?
  {
    overrideContent && BlocksTruthy(content) && |content.blocks| >= 0
  }

  /** Running the hook a second time with the same inputs changes nothing. */
  lemma HookIdempotent(value: bool, template: TemplateRef, content: BlocksValue,
                       collectionRegistered: bool, lookup: TemplateRef -> Option<Template>)
    ensures var once := BeforeChangeContent(value, template, content, collectionRegistered, lookup);
            BeforeChangeContent(value, template, once, collectionRegistered, lookup) == once
  {
  }

  /** Unchecking and checking again re-copies the template's content, whatever
      the block held before. */
  lemma HookToggleResynchronises(template: TemplateRef, content: BlocksValue,
                                 lookup: TemplateRef -> Option<Template>)
    requires RefTruthy(template)
    requires lookup(template).Some? && !lookup(template).value.content.Missing?
    ensures var cleared := BeforeChangeContent(false, template, content, true, lookup);
            BeforeChangeContent(true, template, cleared, true, lookup) == lookup(template).value.content
  {
  }

  /** After the hook, the `content` field (whose condition reads the new
      checkbox value) is hidden when the checkbox was cleared, and shown when
      it was set and the block kept its rows or received an array from the
      template. */
  lemma ContentVisibilityAfterHook(value: bool, template: TemplateRef, content: BlocksValue,
                                   collectionRegistered: bool,
                                   lookup: TemplateRef -> Option<Template>)
    ensures var after := BeforeChangeContent(value, template, content, collectionRegistered, lookup);
            && (!value ==> !ContentVisible(value, after))
            && (value && HasRows(content) ==> ContentVisible(value, after))
            && (HookLookup(value, template, content, collectionRegistered).Some? &&
                lookup(template).Some? && lookup(template).value.content.Blocks? ==>
                  ContentVisible(value, after))
  {
  }
}
