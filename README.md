# ReusableContent template synchronisation, redirects and memory sizing — a Dafny model

This project models the small core of a CMS-backed website:

- **The `ReusableContent` block** (`src/blocks/ReusableContent/config.ts`). A page block refers to a
  *template* (a reusable sequence of content blocks). Its `overrideContent` checkbox has a
  `beforeChange` hook. Setting the checkbox on a block with no content copies the template's `content`
  into the block. Clearing it sets the block's `content` to `null`. Two admin conditions show or hide
  the dependent fields.
- **The later layout of the same block** (`releases/20260221_143253/src/blocks/ReusableContent/config.ts`).
  It has a `useTemplateValues` checkbox (checked means "defer to the template"; it defaults to checked),
  the `content` field and a `contentManager` UI field. It has no write hook.
- **The client-side controller** (`src/blocks/ReusableContent/ContentManager.tsx`). It derives its
  siblings' form paths from its own path. When `useTemplateValues` is checked and rows exist, it removes
  them from the last index down to 0. When the box is unchecked and there are no rows, it requests the
  template (at most one request in flight). When the request completes, it adds one row per
  `content`-kind block, at that block's template index.
- **Render-time resolution** (`src/blocks/ReusableContent/Component.tsx`): which blocks a
  `ReusableContent` block shows.
- **Redirect resolution** (`releases/20260221_143253/src/components/PayloadRedirects/index.tsx`): the
  first redirect entry for a path decides the outcome. A literal URL wins. Otherwise the target URL is
  built from the referenced document's slug. With no entry, the outcome is "not found" unless disabled.
- **The Node memory cap** (`releases/20260221_131156/scripts/calc-node-mem.mjs`):
  `min(70% total, 80% free)` in MiB, clamped to [1000, 32000].

Modules, one file each: `Wrappers` (Option), `ContentModel` (blocks, templates, and the JavaScript
shapes of `blocks` and `relationship` field values), `Strings` (`String.prototype.replace` with a string
pattern and a replacement free of `$` patterns), `ReusableContentConfig`, `ReusableContentRelease`, `ContentManager`, `ReusableContentRender`,
`PayloadRedirects` and `NodeMemory`.

How JavaScript values are represented:

- A `blocks` field value is `Missing` (`undefined`), `Null`, or `Blocks(rows)`. Every array is truthy,
  even an empty one.
- A relationship value is `RefMissing`, `RefNull`, `RefId(id)` or `RefDoc(template)`. Identifiers are
  strings, and the empty string is the only falsy identifier.
- The hook mutates `siblingData` in place, so it is a method on a `SiblingData` object. Its `modifies`
  clause names only `content`.
- The controller is a class. Its state is the form's `content` rows, the `isFetching` guard and the two
  form values it reads.
- The form's `REMOVE_ROW` is `splice(i, 1)`: nothing happens past the end. `addFieldRow` is
  `splice(i, 0, row)`: past the end, the row is appended.
- The asynchronous request is split into two calls. `RunEffect` returns the URL of the request it
  starts. `CompleteFetch` takes the response as a `FetchOutcome`.

Points where the code behaves differently from what one might expect, all modelled as the code does:

- Clearing the checkbox sets `content` to `null`, not to an empty array.
- The controller's checkbox is `useTemplateValues`, where checked means "defer". Checked with rows
  present removes the rows. Unchecked with no rows fetches the template. The controller reads fields
  (`useTemplateValues`, `contentManager`) that only the release layout declares. So the model pairs the
  controller with that layout.
- A redirect entry that matches never falls through to "not found". The built path always starts with
  `/`, so `if (redirectUrl)` always holds. An entry with no destination at all redirects to
  `/undefined/` (`EmptyDestinationRedirects`).

## Model

| member | source | states |
|---|---|---|
| `ReusableContentConfig.HookLookup` | src/blocks/ReusableContent/config.ts:26-38 | the hook calls `findByID` exactly when the value is set, a template is chosen, the collection exists and content is absent or empty; it looks up the block's own `template` |
| `ReusableContentConfig.BeforeChangeContent` | src/blocks/ReusableContent/config.ts:25-50 | clearing always yields `null`; setting with no template, with rows present or without the collection keeps content; the populate case copies the document's `content` exactly, and a missed lookup or a document without `content` keeps it; the result is always the old content, `null` or a template's content |
| `ReusableContentConfig.OverrideContentBeforeChange` | src/blocks/ReusableContent/config.ts:25-50 | the in-place hook sets `siblingData.content` to `BeforeChangeContent` of the old state, leaves `template` and `overrideContent` as they were (and writes no other field), and reports the one lookup it made |
| `ReusableContentConfig.OverrideContentVisible` | src/blocks/ReusableContent/config.ts:19-21 | `overrideContent` is shown iff the template reference is a non-empty id or a populated document |
| `ReusableContentConfig.ContentVisible` | src/blocks/ReusableContent/config.ts:58-62 | `content` is shown iff `overrideContent` is set and `content` is an array, even an empty one, because the `length >= 0` test always holds |
| `ReusableContentConfig.HookIdempotent` | src/blocks/ReusableContent/config.ts:25-50 | running the hook twice with the same inputs gives the same content as running it once |
| `ReusableContentConfig.HookToggleResynchronises` | src/blocks/ReusableContent/config.ts:25-50 | clearing and then setting the checkbox copies the template's content again, whatever the block held before |
| `ReusableContentConfig.ContentVisibilityAfterHook` | src/blocks/ReusableContent/config.ts:25-62 | after the hook, `content` is hidden when the box was cleared, and shown when it was set and the block kept rows or received an array |
| `Strings.IndexOf` | src/blocks/ReusableContent/ContentManager.tsx:22-26 | the result is the first index where the pattern occurs (there is no earlier occurrence), or `None` when the pattern occurs nowhere |
| `Strings.ReplaceFirst` | src/blocks/ReusableContent/ContentManager.tsx:22-26 | `replace` with a string pattern: the text is unchanged without an occurrence; otherwise the first occurrence is replaced and the text around it is kept |
| `Strings.ReplaceSuffix` | src/blocks/ReusableContent/ContentManager.tsx:22-24 | when the only occurrence ends the string, replacing it swaps that suffix |
| `ContentManager.SiblingPath` | src/blocks/ReusableContent/ContentManager.tsx:22-24 | a sibling path is the controller's path with its first `contentManager` replaced by the sibling's name, and the path itself when the name is absent |
| `ContentManager.SiblingPathOfManagerPath` | src/blocks/ReusableContent/ContentManager.tsx:21-24 | for a path `<block path>contentManager` with no earlier occurrence, each sibling path is `<block path><field name>` |
| `ContentManager.ContentSchemaPath` | src/blocks/ReusableContent/ContentManager.tsx:26 | the content schema path is `null` iff the schema path is absent or empty; otherwise it is the schema path with `contentManager` replaced by `content` |
| `ContentManager.TemplateUrl` | src/blocks/ReusableContent/ContentManager.tsx:61-62 | the request URL is the API base (`serverURL + api` when `serverURL` is set, else `api`), then `/templates/`, the template id and `?depth=0`; the id can be read back from between them |
| `ContentManager.Step` | src/blocks/ReusableContent/ContentManager.tsx:45-59 | with no template nothing happens; rows are cleared iff a template is chosen, rows exist and the box is checked; a request starts iff a template is chosen, there are no rows, the box is clear and no request is in flight |
| `ContentManager.Countdown` | src/blocks/ReusableContent/ContentManager.tsx:49 | the loop's indices are `n - 1` down to `0`, each exactly once |
| `ContentManager.CountdownPrefix` | src/blocks/ReusableContent/ContentManager.tsx:49-55 | after the first `k` descending removals, exactly the last `k` rows are gone |
| `ContentManager.DescendingRemovalEmpties` | src/blocks/ReusableContent/ContentManager.tsx:47-55 | removing at `n - 1` down to `0` leaves a length-`n` sequence empty |
| `ContentManager.AscendingRemovalLength` | src/blocks/ReusableContent/ContentManager.tsx:48-55 | removing in ascending order instead leaves `max(n - k, n / 2)` rows after `k` steps, which is why the loop counts down |
| `ContentManager.AscendingRemovalLeavesRows` | src/blocks/ReusableContent/ContentManager.tsx:48-55 | with two or more rows, ascending removal does not empty the field |
| `ContentManager.ContentRows` | src/blocks/ReusableContent/ContentManager.tsx:80-102 | the copied rows are only `content`-kind blocks, no more than the template has, and all of them when the template has only that kind |
| `ContentManager.ContentRowsMembers` | src/blocks/ReusableContent/ContentManager.tsx:80-102 | a block is copied iff it is in the template and its kind is `content` |
| `ContentManager.PopulateSource` | src/blocks/ReusableContent/ContentManager.tsx:70-78 | rows are added iff a content schema path exists and the response is a document whose `content` is a non-empty array; those are the blocks copied |
| `ContentManager.AddRowsAppends` | src/blocks/ReusableContent/ContentManager.tsx:80-102 | when no more rows are present than the loop has visited, each insertion at the template index appends, so the `content` blocks are appended in template order |
| `ContentManager.PopulateEmpty` | src/blocks/ReusableContent/ContentManager.tsx:80-102 | populating an empty field yields exactly the template's `content`-kind blocks, all of its content for a template of the shared block set |
| `ContentManager.Controller.constructor` | src/blocks/ReusableContent/ContentManager.tsx:9-42 | a new controller holds the given paths, API location and form values, with `isFetching` false |
| `ContentManager.Controller.DispatchRemoveRow` | src/blocks/ReusableContent/ContentManager.tsx:50-54 | `REMOVE_ROW` removes the row at the index, or nothing past the end |
| `ContentManager.Controller.AddFieldRow` | src/blocks/ReusableContent/ContentManager.tsx:83-95 | `addFieldRow` inserts the row at `rowIndex`, or appends past the end |
| `ContentManager.Controller.RemoveAllRows` | src/blocks/ReusableContent/ContentManager.tsx:47-55 | dispatches removals at exactly `n - 1` down to `0` and leaves the rows empty |
| `ContentManager.Controller.PopulateRows` | src/blocks/ReusableContent/ContentManager.tsx:80-103 | the rows become the result of inserting each `content` block at its template index, skipping other kinds |
| `ContentManager.Controller.RunEffect` | src/blocks/ReusableContent/ContentManager.tsx:44-116 | one effect run follows `Step`: it clears all rows, or starts one request at `TemplateUrl` and sets `isFetching`, or does nothing; it never duplicates an outstanding request and never both removes and requests |
| `ContentManager.Controller.CompleteFetch` | src/blocks/ReusableContent/ContentManager.tsx:60-112 | on completion the rows are populated when `PopulateSource` allows, and `isFetching` is reset whether the request succeeded or failed |
| `ContentManager.EditingSession` | src/blocks/ReusableContent/ContentManager.tsx:22-116 | the controller's sibling field paths are the block path followed by `useTemplateValues`, `template` and `content`; unchecking on a new block requests the template once (not again while in flight), fills the rows with its content, checking empties them, and unchecking requests it again |
| `ReusableContentRelease.FieldsMatchController` | releases/20260221_143253/src/blocks/ReusableContent/config.ts:8-48 | the layout's fields are `template`, `useTemplateValues`, `content`, `contentManager`, the names the controller substitutes, and `useTemplateValues` defaults to true |
| `ReusableContentRelease.NoWriteHook` | releases/20260221_143253/src/blocks/ReusableContent/config.ts:8-48 | no field of this layout has a `beforeChange` hook |
| `ReusableContentRelease.UseTemplateValuesVisible` | releases/20260221_143253/src/blocks/ReusableContent/config.ts:20-23 | `useTemplateValues` is shown iff the template reference is a non-empty id or a populated document, the same test as the earlier layout's `overrideContent` condition |
| `ReusableContentRelease.ContentVisible` | releases/20260221_143253/src/blocks/ReusableContent/config.ts:29-32 | `content` is shown iff it is an array with at least one row |
| `ReusableContentRelease.NewBlockDefers` | releases/20260221_143253/src/blocks/ReusableContent/config.ts:16-32 | a new block starts checked, so with no rows the controller does nothing and `content` is hidden |
| `ReusableContentRender.ContentToRender` | src/blocks/ReusableContent/Component.tsx:13-17 | override mode resolves to `content`; otherwise a populated template resolves to its `content`, an id or missing template to `null`, and a `null` template to `undefined` |
| `ReusableContentRender.RenderedBlocks` | src/blocks/ReusableContent/Component.tsx:19-27 | blocks are rendered iff the resolved content is an array with rows, and they are exactly those rows |
| `ReusableContentRender.DeferRendersTemplate` | src/blocks/ReusableContent/Component.tsx:13-25 | in defer mode a block renders what its template's content renders, whatever the block stores |
| `ReusableContentRender.OverrideSnapshotIsolated` | src/blocks/ReusableContent/Component.tsx:13-14 | content copied by the hook keeps rendering unchanged however the template is edited later |
| `ReusableContentRender.ClearedRendersTemplate` | src/blocks/ReusableContent/Component.tsx:13-25 | after the hook clears the checkbox, the block stores `null` and renders its template's current content |
| `PayloadRedirects.FindRedirect` | releases/20260221_143253/src/components/PayloadRedirects/index.tsx:28 | the entry chosen is the first whose `from` equals the path; `None` iff no entry matches |
| `PayloadRedirects.RedirectPath` | releases/20260221_143253/src/components/PayloadRedirects/index.tsx:48-56 | a built path always starts with `/`; it is `/<slug>` for pages and `/posts/<slug>` for posts |
| `PayloadRedirects.ItemOutcome` | releases/20260221_143253/src/components/PayloadRedirects/index.tsx:30-60 | a non-empty literal URL wins; an id reference with no collection or an empty id returns null (and only that case returns null); otherwise the entry redirects to the built path: with the looked-up document's slug for an id reference, the populated document's slug, `undefined` for a `null` value, and an empty slug when there is no value or no reference; a matching entry is never "not found" |
| `PayloadRedirects.Resolve` | releases/20260221_143253/src/components/PayloadRedirects/index.tsx:25-65 | the first matching entry decides; with no match the outcome is null when not-found is disabled and "not found" otherwise; "not found" iff nothing matches and it is not disabled |
| `PayloadRedirects.FirstEntryWins` | releases/20260221_143253/src/components/PayloadRedirects/index.tsx:28 | an entry preceded by no other match decides the outcome, shadowing later entries for the same path |
| `PayloadRedirects.EmptyDestinationRedirects` | releases/20260221_143253/src/components/PayloadRedirects/index.tsx:52-59 | a matching entry with no destination redirects to `/undefined/` rather than falling through |
| `NodeMemory.MemLimitFor` | releases/20260221_131156/scripts/calc-node-mem.mjs:7-16 | the limit lies in [1000, 32000]; it equals `min(7t/10, 8f/10)` when that is within range, 1000 below it and 32000 above it; it never exceeds `max(1000, 7t/10)` or `max(1000, 8f/10)` |
| `NodeMemory.MemLimit` | releases/20260221_131156/scripts/calc-node-mem.mjs:4-16 | the script's computation from byte counts, with its two successive clamps, yields `MemLimitFor` of the sizes in MiB |
| `NodeMemory.MemLimitMonotone` | releases/20260221_131156/scripts/calc-node-mem.mjs:7-16 | more total or free memory never lowers the limit |
| `NodeMemory.WorkedExamples` | releases/20260221_131156/scripts/calc-node-mem.mjs:7-16 | 10000/5000 MiB gives 4000; 500/500 gives 1000; 100000/100000 gives 32000 |

## Left out

- The HTTP request, credentials, headers and JSON decoding (`ContentManager.tsx:61-69`): the response is an input to `CompleteFetch`, where a network or JSON failure is `Rejected`.
- Payload's `findByID` is the `lookup` parameter. Payload throws when the document is missing; the model treats a missing document as "no document", and the hook then keeps the content. In the program the thrown error rejects the `beforeChange` hook (config.ts:34-38) and the save is aborted; the model does not capture that abort.
- The `templates` collection lookup (`req.payload.collections.templates`) is the `collectionRegistered` parameter. The hook's `data` and `req` arguments play no other part.
- `siblingData` is always an object, so the hook's `if (siblingData)` test is not modelled.
- The React lifecycle: when the effect re-fires, `useRef`, and `useFormFields`. One effect run is one `RunEffect` call. The three sibling fields are assumed present, and the content field's value is its row count. `SetInputs` stands for the editor changing the form.
- Interleaving of an outstanding request with later edits is not modelled. A completion applies to whatever rows exist when it arrives. There is no cancellation in the code to model.
- The `console.log` diagnostic for unknown block kinds is left out (I/O). Such blocks are skipped, as in the code.
- `Strings.ReplaceFirst`: inserts the replacement text literally. JavaScript would expand `$&`, `$$`, `` $` `` and `$'` in it. The controller's replacements are the plain field names, which contain no `$`.
- Block rows carry only their kind and `richText`. Row identifiers, `blockName` and the schema path passed to `addFieldRow` are form bookkeeping.
- `NodeMemory.MemLimitFor`: IEEE products are not modelled. `total * 0.7` and `free * 0.8` are computed as the exact `7t/10` and `8f/10`. Floating-point rounding can come out one lower, and the difference can reach the result: `1430 * 0.7` is `1000.9999999999999` in double precision, so the script caps at 1000 where `MemLimitFor(1430, f)` gives 1001 for large `f`.
- `os.totalmem()`, `os.freemem()` and the write to standard output are I/O. The method takes byte counts and returns the limit.
- `PayloadRedirects.RedirectPath`: a `null` collection or slug prints as `undefined`, where JavaScript prints `null`. Only present slugs are meant to be relied on.
- Next's `redirect` and `notFound` throw. They are returned as `Outcome` values. `getCachedRedirects` is the `redirects` sequence and `getCachedDocument` is the `documents` function.
- In the hook, the controller and the renderer, numeric document identifiers are represented by their decimal string. There, truthiness, interpolation and the `typeof === 'object'` test treat a non-zero number and its decimal string alike, and generated identifiers are never 0.
- `PayloadRedirects.ItemOutcome`: a reference value is a string, a document, `null` or missing, as the declared type of `RedirectItem` says. A numeric value is not modelled. The code would send it down the non-string branch, with no document lookup.
- A second copy of the controller that inserts rows for every block kind is not part of this model.
- Not modelled: the health route (a clock read and a constant response), the process-manager configuration, the generated migrations list, the `Templates` collection configuration (it only supplies the block set with the single kind `content`) and the presentational components. None of them has logic.
