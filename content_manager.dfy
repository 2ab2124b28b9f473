/** The `ContentManager` UI field of the `ReusableContent` block: a client-side
    controller that, while an editor works on the admin form, empties the
    block's `content` rows when `useTemplateValues` is checked and fills them
    from the chosen template when it is unchecked. One run of its effect is
    `Controller.RunEffect`; the completion of the template request it starts is
    `Controller.CompleteFetch`. */
module ContentManager {
  import opened Wrappers
  import opened ContentModel
  import Strings

  // Names of the sibling fields of the block, as the controller uses them.
  const ManagerField: string := "contentManager"
  const CheckboxField: string := "useTemplateValues"
  const TemplateField: string := "template"
  const ContentField: string := "content"

  /** The path of a sibling field: `path.replace('contentManager', field)`. */
  function SiblingPath(path: string, field: string): (r: string)
    ensures Strings.IndexOf(path, ManagerField).None? ==> r == path
    ensures Strings.IndexOf(path, ManagerField).Some? ==>
              var k := Strings.IndexOf(path, ManagerField).value;
              r == path[..k] + field + path[k + |ManagerField|..]
  {
    Strings.ReplaceFirst(path, ManagerField, field)
  }

  /** For the usual path of the controller, `<block path>contentManager` with no
      earlier occurrence of the name, each sibling path is the block path
      followed by the sibling's name. */
  lemma SiblingPathOfManagerPath(base: string, field: string)
    requires forall j: nat :: j < |base| ==> !Strings.OccursAt(base + ManagerField, ManagerField, j)
    ensures SiblingPath(base + ManagerField, field) == base + field
  {
    Strings.ReplaceSuffix(base, ManagerField, field);
  }

  /** The schema path of `content`, or `null` when the field has no schema path. */
  function ContentSchemaPath(schemaPath: Option<string>): (r: Option<string>)
    ensures r.None? <==> schemaPath.None? || schemaPath.value == ""
    ensures r.Some? ==> r.value == SiblingPath(schemaPath.value, ContentField)
  {
    if schemaPath.Some? && schemaPath.value != "" then Some(SiblingPath(schemaPath.value, ContentField))
    else None
  }

  const TemplatesRoute: string := "/templates/"
  const DepthQuery: string := "?depth=0"

  /** `serverURL ? serverURL + api : api`. */
  function ApiBase(serverURL: string, api: string): string {
    if serverURL != "" then serverURL + api else api
  }

  /** The address of the template request: the API base, the templates route,
      the template identifier and a query asking for no populated relations.
      The identifier can be read back from between the route and the query. */
  function TemplateUrl(serverURL: string, api: string, id: Id): (r: string)
    ensures var base := ApiBase(serverURL, api);
            && |r| == |base| + |TemplatesRoute| + |id| + |DepthQuery|
            && r[..|base|] == base
            && r[|base|..|base| + |TemplatesRoute|] == TemplatesRoute
            && r[|base| + |TemplatesRoute|..|r| - |DepthQuery|] == id
            && r[|r| - |DepthQuery|..] == DepthQuery
  {
    var base := ApiBase(serverURL, api);
    var r := base + TemplatesRoute + id + DepthQuery;
    assert r[..|base|] == base;
    assert r[|base|..|base| + |TemplatesRoute|] == TemplatesRoute;
    assert r[|base| + |TemplatesRoute|..|r| - |DepthQuery|] == id;
    assert r[|r| - |DepthQuery|..] == DepthQuery;
    r
  }

  /** A template is chosen: the template field's form value is truthy. */
  predicate Selected(templateValue: Option<Id>) {
    templateValue.Some? && templateValue.value != ""
  }

  /** What one run of the effect does. */
  datatype EffectStep =
    | Idle           // no template chosen, or nothing to do
    | ClearRows      // checked with rows present: remove every row
    | StartFetch     // unchecked with no rows: request the template
    | FetchInFlight  // unchecked with no rows, but a request is outstanding

  /** The branch of the effect taken for the given inputs. Removing rows needs
      the checkbox set and populating needs it clear, so no run does both. */
  function Step(templateValue: Option<Id>, checkboxValue: bool, rowCount: nat,
                isFetching: bool): (r: EffectStep)
    ensures !Selected(templateValue) ==> r == Idle
    ensures r == ClearRows <==> Selected(templateValue) && rowCount > 0 && checkboxValue
    ensures r == StartFetch <==> Selected(templateValue) && rowCount == 0 && !checkboxValue && !isFetching
    ensures r == FetchInFlight <==> Selected(templateValue) && rowCount == 0 && !checkboxValue && isFetching
  {
    if !Selected(templateValue) then Idle
    else if rowCount > 0 && checkboxValue then ClearRows
    else if rowCount == 0 && !checkboxValue then (if isFetching then FetchInFlight else StartFetch)
    else Idle
  }

  /** The form's `REMOVE_ROW` action: `rows.splice(i, 1)`, a no-op past the end. */
  function RemoveAt(rows: seq<Block>, i: nat): seq<Block> {
    if i < |rows| then rows[..i] + rows[i + 1..] else rows
  }

  /** The form's `addFieldRow`: `rows.splice(i, 0, row)`, appending past the end. */
  function InsertAt(rows: seq<Block>, i: nat, row: Block): seq<Block> {
    if i <= |rows| then rows[..i] + [row] + rows[i..] else rows + [row]
  }

  /** The indices `n - 1, n - 2, ..., 0`. */
  function Countdown(n: nat): (r: seq<nat>)
    ensures |r| == n
    ensures forall k :: 0 <= k < n ==> r[k] == n - 1 - k
  {
    if n == 0 then [] else [n - 1] + Countdown(n - 1)
  }

  /** The rows left after removing at each index of `idxs` in turn. */
  function ApplyRemovals(rows: seq<Block>, idxs: seq<nat>): seq<Block>
    decreases |idxs|
  {
    if idxs == [] then rows
    else RemoveAt(ApplyRemovals(rows, idxs[..|idxs| - 1]), idxs[|idxs| - 1])
  }

  /** Removing at `n - 1` down to `n - k` removes the last `k` rows, and each
      index is in range when it is removed. */
  lemma {:induction false} CountdownPrefix(rows: seq<Block>, k: nat)
    requires k <= |rows|
    ensures ApplyRemovals(rows, Countdown(|rows|)[..k]) == rows[..|rows| - k]
  {
    var n := |rows|;
    if k > 0 {
      CountdownPrefix(rows, k - 1);
      assert Countdown(n)[..k][..k - 1] == Countdown(n)[..k - 1];
      assert Countdown(n)[..k][k - 1] == n - k;
      assert rows[..n - k + 1][..n - k] == rows[..n - k];
    }
  }

  /** Removing in descending order empties any sequence of rows. */
  lemma {:induction false} DescendingRemovalEmpties(rows: seq<Block>)
    ensures ApplyRemovals(rows, Countdown(|rows|)) == []
  {
    CountdownPrefix(rows, |rows|);
    assert Countdown(|rows|)[..|rows|] == Countdown(|rows|);
  }

  /** The indices `0, 1, ..., n - 1`. */
  function Upto(n: nat): (r: seq<nat>)
    ensures |r| == n && forall k :: 0 <= k < n ==> r[k] == k
  {
    seq(n, k requires 0 <= k < n => k)
  }

  /** Removing in ascending order would leave rows behind: the indices shift
      down under each removal, so after the first half the rest are past the
      end. After `k` removals, `max(n - k, n / 2)` rows remain. */
  lemma {:induction false} AscendingRemovalLength(rows: seq<Block>, k: nat)
    requires k <= |rows|
    ensures |ApplyRemovals(rows, Upto(k))| == if 2 * k <= |rows| then |rows| - k else |rows| / 2
  {
    if k > 0 {
      AscendingRemovalLength(rows, k - 1);
      assert Upto(k)[..k - 1] == Upto(k - 1);
    }
  }

  lemma {:induction false} AscendingRemovalLeavesRows(rows: seq<Block>)
    requires |rows| >= 2
    ensures ApplyRemovals(rows, Upto(|rows|)) != []
  {
    AscendingRemovalLength(rows, |rows|);
  }

  /** The rows of `blocks` the controller can copy: those of the `Content`
      kind, in template order. */
  function ContentRows(blocks: seq<Block>): (r: seq<Block>)
    ensures |r| <= |blocks|
    ensures OnlyContentBlocks(r)
    ensures OnlyContentBlocks(blocks) ==> r == blocks
  {
    if blocks == [] then []
    else
      var rest := ContentRows(blocks[1..]);
      assert blocks == [blocks[0]] + blocks[1..];
      assert OnlyContentBlocks(blocks) ==> OnlyContentBlocks(blocks[1..]);
      if blocks[0].blockType == ContentBlockType then [blocks[0]] + rest
      else rest
  }

  /** The filter keeps exactly the `Content` blocks of the template. */
  lemma {:induction false} ContentRowsMembers(blocks: seq<Block>)
    ensures forall b :: b in ContentRows(blocks) <==> b in blocks && b.blockType == ContentBlockType
  {
    if blocks != [] {
      ContentRowsMembers(blocks[1..]);
      assert blocks == [blocks[0]] + blocks[1..];
    }
  }

  /** One step of the filter, taken at index `i`. */
  lemma ContentRowsCons(blocks: seq<Block>, i: nat)
    requires i < |blocks|
    ensures ContentRows(blocks[i..]) ==
              (if blocks[i].blockType == ContentBlockType then [blocks[i]] else [])
              + ContentRows(blocks[i + 1..])
  {
    var tail := blocks[i..];
    assert tail[1..] == blocks[i + 1..];
    assert tail[0] == blocks[i];
  }

  /** An insertion at or past the end appends. */
  lemma InsertPastEnd(rows: seq<Block>, i: nat, row: Block)
    requires |rows| <= i
    ensures InsertAt(rows, i, row) == rows + [row]
  {
  }

  /** The populate loop from index `i` on: each `Content` block is added as a
      row at its own template index; other kinds are skipped. */
  function AddRows(rows: seq<Block>, blocks: seq<Block>, i: nat): seq<Block>
    decreases |blocks| - i
  {
    if i >= |blocks| then rows
    else
      var next := if blocks[i].blockType == ContentBlockType then InsertAt(rows, i, blocks[i]) else rows;
      AddRows(next, blocks, i + 1)
  }

  /** When no more rows are present than the loop has visited, every insertion
      lands at the end, so populating appends the template's `Content` rows in
      order. */
  lemma {:induction false} AddRowsAppends(rows: seq<Block>, blocks: seq<Block>, i: nat)
    requires i <= |blocks| && |rows| <= i
    ensures AddRows(rows, blocks, i) == rows + ContentRows(blocks[i..])
    decreases |blocks| - i
  {
    if i == |blocks| {
      assert blocks[i..] == [];
    } else {
      ContentRowsCons(blocks, i);
      var b := blocks[i];
      if b.blockType == ContentBlockType {
        InsertPastEnd(rows, i, b);
        AddRowsAppends(rows + [b], blocks, i + 1);
        assert (rows + [b]) + ContentRows(blocks[i + 1..]) == rows + ([b] + ContentRows(blocks[i + 1..]));
      } else {
        AddRowsAppends(rows, blocks, i + 1);
        assert [] + ContentRows(blocks[i + 1..]) == ContentRows(blocks[i + 1..]);
      }
    }
  }

  /** Populating an empty content field yields exactly the template's `Content`
      rows, and for a template of the shared block set, its whole content. */
  lemma {:induction false} PopulateEmpty(blocks: seq<Block>)
    ensures AddRows([], blocks, 0) == ContentRows(blocks)
    ensures OnlyContentBlocks(blocks) ==> AddRows([], blocks, 0) == blocks
  {
    AddRowsAppends([], blocks, 0);
    assert blocks[0..] == blocks;
  }

  /** How the template request ended: it was rejected (network or JSON
      failure), or it resolved to a JSON document, possibly `null`. */
  datatype FetchOutcome = Rejected | Resolved(doc: Option<Template>)

  /** The blocks the completion copies, if any: a content schema path is
      known and the response is a document whose `content` is a non-empty array. */
  function PopulateSource(outcome: FetchOutcome, contentSchemaPath: Option<string>): (r: Option<seq<Block>>)
    ensures r.Some? <==> contentSchemaPath.Some? && outcome.Resolved? && outcome.doc.Some?
                          && HasRows(outcome.doc.value.content)
    ensures r.Some? ==> r.value == outcome.doc.value.content.blocks
  {
    match outcome
    case Resolved(Some(doc)) =>
      if doc.content != Missing && contentSchemaPath.Some? && doc.content.Blocks? && |doc.content.blocks| > 0
      then Some(doc.content.blocks) else None
    case _ => None
  }

  /** The rows after the request completes. */
  function RowsAfterFetch(rows: seq<Block>, outcome: FetchOutcome, contentSchemaPath: Option<string>): seq<Block> {
    match PopulateSource(outcome, contentSchemaPath)
    case Some(blocks) => AddRows(rows, blocks, 0)
    case None => rows
  }

  /** The controller of one block in the admin form: its field paths, the API
      location, the form values it reads (`templateValue`, `checkboxValue`),
      the rows of the `content` field it edits, and the `isFetching` guard. */
  class Controller {
    const path: string
    const schemaPath: Option<string>
    const serverURL: string
    const api: string
    var templateValue: Option<Id>
    var checkboxValue: bool
    var content: seq<Block>
    var isFetching: bool

    /** The path of a sibling field of this controller's block; the form
        values and the rows it edits live at these paths. */
    function FieldPath(field: string): string {
      SiblingPath(path, field)
    }

    constructor (path: string, schemaPath: Option<string>, serverURL: string, api: string,
                 templateValue: Option<Id>, checkboxValue: bool, content: seq<Block>)
      ensures this.path == path && this.schemaPath == schemaPath
      ensures this.serverURL == serverURL && this.api == api
      ensures this.templateValue == templateValue && this.checkboxValue == checkboxValue
      ensures this.content == content
      ensures !isFetching
    {
      this.path := path;
      this.schemaPath := schemaPath;
      this.serverURL := serverURL;
      this.api := api;
      this.templateValue := templateValue;
      this.checkboxValue := checkboxValue;
      this.content := content;
      isFetching := false;
    }

    /** The editor changes the template or the checkbox in the form. */
    method SetInputs(templateValue: Option<Id>, checkboxValue: bool)
      modifies this`templateValue, this`checkboxValue
      ensures this.templateValue == templateValue && this.checkboxValue == checkboxValue
    {
      this.templateValue := templateValue;
      this.checkboxValue := checkboxValue;
    }

    /** Dispatch of `REMOVE_ROW` on the content field. */
    method DispatchRemoveRow(rowIndex: nat)
      modifies this`content
      ensures content == RemoveAt(old(content), rowIndex)
    {
      content := RemoveAt(content, rowIndex);
    }

    /** `addFieldRow` on the content field. */
    method AddFieldRow(rowIndex: nat, row: Block)
      modifies this`content
      ensures content == InsertAt(old(content), rowIndex, row)
    {
      content := InsertAt(content, rowIndex, row);
    }

    /** The removal loop: `REMOVE_ROW` at `n - 1` down to `0`. Returns the
        indices dispatched, in order. */
    method RemoveAllRows() returns (removed: seq<nat>)
      modifies this`content
      ensures removed == Countdown(|old(content)|)
      ensures content == ApplyRemovals(old(content), removed)
      ensures content == []
    {
      var n := |content|;
      var i := n;
      removed := [];
      while i > 0
        invariant 0 <= i <= n
        invariant removed == Countdown(n)[..n - i]
        invariant content == old(content)[..i]
        invariant content == ApplyRemovals(old(content), removed)
      {
        i := i - 1;
        assert Countdown(n)[..n - i] == Countdown(n)[..n - i - 1] + [i];
        assert old(content)[..i + 1][..i] == old(content)[..i];
        DispatchRemoveRow(i);
        removed := removed + [i];
        assert removed[..|removed| - 1] == Countdown(n)[..n - i - 1];
      }
      assert Countdown(n)[..n] == Countdown(n);
    }

    /** The populate loop over the template's blocks. */
    method PopulateRows(blocks: seq<Block>)
      modifies this`content
      ensures content == AddRows(old(content), blocks, 0)
    {
      var i := 0;
      while i < |blocks|
        invariant 0 <= i <= |blocks|
        invariant AddRows(content, blocks, i) == AddRows(old(content), blocks, 0)
      {
        if blocks[i].blockType == ContentBlockType {
          AddFieldRow(i, blocks[i]);
        }
        i := i + 1;
      }
    }

    /** One run of the effect. Returns the row indices it removed and the
        address of the template request it started, if any. */
    method RunEffect() returns (removed: seq<nat>, request: Option<string>)
      modifies this`content, this`isFetching
      ensures var step := Step(old(templateValue), old(checkboxValue), |old(content)|, old(isFetching));
              && removed == (if step == ClearRows then Countdown(|old(content)|) else [])
              && content == (if step == ClearRows then [] else old(content))
              && request == (if step == StartFetch then Some(TemplateUrl(serverURL, api, templateValue.value)) else None)
              && isFetching == (old(isFetching) || step == StartFetch)
      // a request already outstanding is never duplicated
      ensures old(isFetching) ==> request.None?
      // one run either removes rows or requests the template, never both
      ensures removed == [] || request.None?
    {
      removed, request := [], None;
      var contentValue := |content|;
      if Selected(templateValue) {
        if contentValue > 0 && checkboxValue {
          removed := RemoveAllRows();
        }
        if contentValue == 0 && !checkboxValue {
          if !isFetching {
            request := Some(TemplateUrl(serverURL, api, templateValue.value));
            isFetching := true;
          }
        }
      }
    }

    /** The completion of the template request (the `finally` of the fetch):
        the rows are populated when the response allows, and the guard is
        released whether the request succeeded or failed. */
    method CompleteFetch(outcome: FetchOutcome)
      requires isFetching
      modifies this`content, this`isFetching
      ensures content == RowsAfterFetch(old(content), outcome, ContentSchemaPath(schemaPath))
      ensures !isFetching
    {
      var contentSchemaPath := ContentSchemaPath(schemaPath);
      var blocks := PopulateSource(outcome, contentSchemaPath);
      if blocks.Some? {
        PopulateRows(blocks.value);
      }
      isFetching := false;
    }
  }

  /** An editing session on a new block whose template is `id`: the editor
      unchecks `useTemplateValues`, the effect requests the template (a second
      run while the request is out requests nothing), the response fills the
      rows with the template's content; checking the box again empties them,
      and unchecking once more requests the template again. */
  method EditingSession(base: string, schemaPath: string, serverURL: string, api: string,
                        id: Id, doc: Template)
    returns (fieldPaths: seq<string>, request: Option<string>, duplicate: Option<string>,
             populated: seq<Block>, cleared: seq<Block>, again: Option<string>)
    requires id != "" && schemaPath != ""
    requires doc.content.Blocks? && OnlyContentBlocks(doc.content.blocks)
    ensures (forall j: nat :: j < |base| ==> !Strings.OccursAt(base + ManagerField, ManagerField, j)) ==>
              fieldPaths == [base + CheckboxField, base + TemplateField, base + ContentField]
    ensures request == Some(TemplateUrl(serverURL, api, id))
    ensures duplicate == None
    ensures populated == doc.content.blocks
    ensures cleared == []
    ensures again == request
  {
    var c := new Controller(base + ManagerField, Some(schemaPath), serverURL, api, Some(id), false, []);
    fieldPaths := [c.FieldPath(CheckboxField), c.FieldPath(TemplateField), c.FieldPath(ContentField)];
    if forall j: nat :: j < |base| ==> !Strings.OccursAt(base + ManagerField, ManagerField, j) {
      SiblingPathOfManagerPath(base, CheckboxField);
      SiblingPathOfManagerPath(base, TemplateField);
      SiblingPathOfManagerPath(base, ContentField);
    }
    var removed;
    removed, request := c.RunEffect();
    removed, duplicate := c.RunEffect();
    c.CompleteFetch(Resolved(Some(doc)));
    PopulateEmpty(doc.content.blocks);
    populated := c.content;
    c.SetInputs(Some(id), true);
    var unused;
    removed, unused := c.RunEffect();
    cleared := c.content;
    c.SetInputs(Some(id), false);
    removed, again := c.RunEffect();
  }
}
