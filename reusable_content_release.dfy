/** The `ReusableContent` block as configured in the later release: a
    `template` relationship, a `useTemplateValues` checkbox (checked means
    "defer to the template", the default), the `content` blocks field and the
    `contentManager` UI field that hosts the client controller. This layout
    has no write hook. */
module ReusableContentRelease {
  import opened Wrappers
  import opened ContentModel
  import ContentManager
  import ReusableContentConfig

  datatype FieldKind = Relationship | Checkbox | BlocksField | UiField

  /** One field of the block configuration: its name, kind, default value
      (for a checkbox) and whether it carries a `beforeChange` hook. */
  datatype FieldConfig = FieldConfig(name: string, kind: FieldKind,
                                     defaultValue: Option<bool>, hasBeforeChange: bool)

  /** The fields, in configuration order. */
  function Fields(): seq<FieldConfig> {
    [ FieldConfig("template", Relationship, None, false),
      FieldConfig("useTemplateValues", Checkbox, Some(true), false),
      FieldConfig("content", BlocksField, None, false),
      FieldConfig("contentManager", UiField, None, false) ]
  }

  /** The layout has exactly the four sibling fields whose names the
      controller substitutes into its own path, and a new block starts with
      `useTemplateValues` set. */
  lemma FieldsMatchController()
    ensures |Fields()| == 4
    ensures Fields()[0].name == ContentManager.TemplateField
    ensures Fields()[1].name == ContentManager.CheckboxField
    ensures Fields()[2].name == ContentManager.ContentField
    ensures Fields()[3].name == ContentManager.ManagerField && Fields()[3].kind == UiField
    ensures Fields()[1].kind == Checkbox && Fields()[1].defaultValue == Some(true)
  {
  }

  /** No field of this layout has a write hook: clearing and populating
      happen only through the client controller. */
  lemma NoWriteHook()
    ensures forall k :: 0 <= k < |Fields()| ==> !Fields()[k].hasBeforeChange
  {
  }

  /** Admin condition of `useTemplateValues`: shown once a template is
      chosen, the same test the earlier layout applies to `overrideContent`. */
  function UseTemplateValuesVisible(template: TemplateRef): (r: bool)
    ensures r <==> (template.RefId? && template.id != "") || template.RefDoc?
    ensures r == ReusableContentConfig.OverrideContentVisible(template)
  {
    RefTruthy(template)
  }

  /** Admin condition of `content`: `content && content.length > 0`, so the
      field shows exactly when it holds at least one row. */
  function ContentVisible(content: BlocksValue): (r: bool)
    ensures r <==> content.Blocks? && |content.blocks| > 0
    ensures r ==> !NoRows(content)
  {
    BlocksTruthy(content) && |content.blocks| > 0
  }

  /** A block freshly added in this layout is in defer mode: the checkbox
      defaults to set, so with no rows the controller's effect does nothing,
      and the `content` field is hidden. */
  lemma NewBlockDefers(templateValue: Option<Id>, isFetching: bool)
    ensures var checkbox := Fields()[1].defaultValue.value;
            ContentManager.Step(templateValue, checkbox, 0, isFetching) == ContentManager.Idle
    ensures !ContentVisible(Blocks([]))
  {
  }
}
