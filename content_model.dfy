/** Values shared by the template-synchronisation components: block rows,
    template documents, and the JavaScript shapes a `blocks` field and a
    `relationship` field can take. */
module ContentModel {
  import opened Wrappers

  /** A document identifier as it appears in a URL (numeric identifiers are
      written in decimal). The empty string is the only falsy one. */
  type Id = string

  /** A rich-text document; it is a JSON object, so it is always truthy. */
  datatype RichText = RichText(json: string)

  /** One row of a `blocks` field: its block kind and its `richText` field. */
  datatype Block = Block(blockType: string, richText: Option<RichText>)

  /** The slug of the `Content` block, the only kind in the block set shared
      by `Templates.content` and `ReusableContent.content`. */
  const ContentBlockType: string := "content"

  /** The value of a `blocks` field: the key is missing (`undefined`), it is
      `null`, or it holds an array of rows. */
  datatype BlocksValue = Missing | Null | Blocks(blocks: seq<Block>)

  /** JavaScript truthiness: every array is truthy, even an empty one. */
  predicate BlocksTruthy(v: BlocksValue) {
    v.Blocks?
  }

  /** `!v || v.length === 0`: nothing there, or an empty array. */
  predicate NoRows(v: BlocksValue) {
    !v.Blocks? || |v.blocks| == 0
  }

  /** `v && v.length > 0`. */
  predicate HasRows(v: BlocksValue) {
    v.Blocks? && |v.blocks| > 0
  }

  /** A template document. `content` is `Missing` when the document has no
      `content` key. */
  datatype Template = Template(id: Id, title: string, content: BlocksValue)

  /** The value of the `template` relationship field: missing, `null`, an
      unpopulated identifier, or the populated document. */
  datatype TemplateRef = RefMissing | RefNull | RefId(id: Id) | RefDoc(doc: Template)

  predicate RefTruthy(t: TemplateRef) {
    match t
    case RefId(id) => id != ""
    case RefDoc(_) => true
    case _ => false
  }

  /** A template that the shared block set admits: every block is a `Content` block. */
  predicate OnlyContentBlocks(blocks: seq<Block>) {
    forall k :: 0 <= k < |blocks| ==> blocks[k].blockType == ContentBlockType
  }
}
