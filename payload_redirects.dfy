/** Server-side redirect resolution for a request path: find the first entry
    of the redirects table whose `from` is the path, then redirect to its
    literal URL or to the URL built from the document it references; without
    a matching entry, respond "not found" unless the caller disabled that.
    The framework's throwing `redirect` and `notFound` are returned as an
    `Outcome`. */
module PayloadRedirects {
  import opened Wrappers

  datatype Collection = Pages | Posts

  function CollectionSlug(c: Collection): string {
    match c
    case Pages => "pages"
    case Posts => "posts"
  }

  /** `to.reference.value`: missing, `null`, an unpopulated identifier (a
      string, as the declared type of `RedirectItem` has it), or a populated
      document with its `slug`. */
  datatype ReferenceValue = ValueMissing | ValueNull | ValueId(id: string) | ValueDoc(slug: Option<string>)

  datatype Reference = Reference(relationTo: Option<Collection>, value: ReferenceValue)

  datatype Destination = Destination(url: Option<string>, reference: Option<Reference>)

  datatype RedirectItem = RedirectItem(from: Option<string>, to: Option<Destination>)

  /** A document fetched by collection and identifier. */
  datatype Document = Document(slug: Option<string>)

  datatype Outcome = Redirect(url: string) | ReturnNull | NotFound

  predicate Matches(item: RedirectItem, url: string) {
    item.from == Some(url)
  }

  /** `redirects.find(r => r.from === url)`, as the index of the entry found. */
  function FindRedirect(redirects: seq<RedirectItem>, url: string): (r: Option<nat>)
    ensures r.Some? ==> r.value < |redirects| && Matches(redirects[r.value], url)
    ensures r.Some? ==> forall j :: 0 <= j < r.value ==> !Matches(redirects[j], url)
    ensures r.None? ==> forall j :: 0 <= j < |redirects| ==> !Matches(redirects[j], url)
  {
    if redirects == [] then None
    else if Matches(redirects[0], url) then Some(0)
    else
      match FindRedirect(redirects[1..], url)
      case Some(k) =>
        assert forall j :: 1 <= j < k + 1 ==> redirects[j] == redirects[1..][j - 1];
        Some(k + 1)
      case None =>
        assert forall j :: 1 <= j < |redirects| ==> redirects[j] == redirects[1..][j - 1];
        None
  }

  /** `to?.url`, when truthy. */
  function LiteralUrl(item: RedirectItem): Option<string> {
    if item.to.Some? && item.to.value.url.Some? && item.to.value.url.value != ""
    then item.to.value.url else None
  }

  /** `to?.reference`, normalised: a missing reference reads as one with no
      collection and no value. */
  function ReferenceOf(item: RedirectItem): Reference {
    if item.to.Some? && item.to.value.reference.Some? then item.to.value.reference.value
    else Reference(None, ValueMissing)
  }

  /** Template-literal interpolation of an optional string: a missing one
      prints as `undefined`. */
  function Interpolate(s: Option<string>): string {
    s.GetOr("undefined")
  }

  /** `${relationTo !== 'pages' ? `/${relationTo}` : ''}/${slug}`. */
  function RedirectPath(relationTo: Option<Collection>, slugText: string): (r: string)
    ensures |r| > 0 && r[0] == '/'
    ensures relationTo == Some(Pages) ==> r == "/" + slugText
    ensures relationTo == Some(Posts) ==> r == "/posts/" + slugText
  {
    var prefix := if relationTo != Some(Pages) then "/" + Interpolate(if relationTo.Some? then Some(CollectionSlug(relationTo.value)) else None) else "";
    prefix + "/" + slugText
  }

  /** The outcome for a matching entry. `documents` stands for the cached
      document lookup by collection and identifier. */
  function ItemOutcome(item: RedirectItem, documents: (Collection, string) -> Option<Document>): (r: Outcome)
    // a matching entry never falls through to "not found"
    ensures r != NotFound
    // a literal URL wins over any reference
    ensures LiteralUrl(item).Some? ==> r == Redirect(LiteralUrl(item).value)
    // an identifier reference with no collection or an empty identifier returns null
    ensures LiteralUrl(item).None? && ReferenceOf(item).value.ValueId? ==>
              (r == ReturnNull <==> ReferenceOf(item).relationTo.None? || ReferenceOf(item).value.id == "")
    ensures r == ReturnNull ==> LiteralUrl(item).None? && ReferenceOf(item).value.ValueId?
    // a resolved identifier reference redirects to the document's slug
    ensures LiteralUrl(item).None? && ReferenceOf(item).value.ValueId? && r.Redirect? ==>
              var ref := ReferenceOf(item);
              var doc := documents(ref.relationTo.value, ref.value.id);
              r.url == RedirectPath(ref.relationTo, Interpolate(if doc.Some? then doc.value.slug else None))
    // a populated reference redirects to its slug
    ensures LiteralUrl(item).None? && ReferenceOf(item).value.ValueDoc? ==>
              r == Redirect(RedirectPath(ReferenceOf(item).relationTo, Interpolate(ReferenceOf(item).value.slug)))
    // a `null` value prints its missing slug; no value at all leaves the slug empty
    ensures LiteralUrl(item).None? && ReferenceOf(item).value.ValueNull? ==>
              r == Redirect(RedirectPath(ReferenceOf(item).relationTo, Interpolate(None)))
    ensures LiteralUrl(item).None? && ReferenceOf(item).value.ValueMissing? ==>
              r == Redirect(RedirectPath(ReferenceOf(item).relationTo, ""))
  {
    if LiteralUrl(item).Some? then Redirect(LiteralUrl(item).value)
    else
      var ref := ReferenceOf(item);
      match ref.value
      case ValueId(id) =>
        if ref.relationTo.None? || id == "" then ReturnNull
        else
          var doc := documents(ref.relationTo.value, id);
          Redirect(RedirectPath(ref.relationTo, Interpolate(if doc.Some? then doc.value.slug else None)))
      case ValueDoc(slug) =>
        Redirect(RedirectPath(ref.relationTo, Interpolate(slug)))
      case ValueNull =>
        // `typeof null === 'object'`, and `null?.slug` is `undefined`
        Redirect(RedirectPath(ref.relationTo, Interpolate(None)))
      case ValueMissing =>
        Redirect(RedirectPath(ref.relationTo, ""))
  }

  /** The whole decision for a request path. */
  function Resolve(redirects: seq<RedirectItem>, url: string, disableNotFound: bool,
                   documents: (Collection, string) -> Option<Document>): (r: Outcome)
    // the first matching entry decides
    ensures FindRedirect(redirects, url).Some? ==>
              r == ItemOutcome(redirects[FindRedirect(redirects, url).value], documents)
    // without a matching entry: null when not-found is disabled, not-found otherwise
    ensures (forall j :: 0 <= j < |redirects| ==> !Matches(redirects[j], url)) ==>
              r == (if disableNotFound then ReturnNull else NotFound)
    // "not found" exactly when nothing matches and it is not disabled
    ensures r == NotFound <==>
              !disableNotFound && forall j :: 0 <= j < |redirects| ==> !Matches(redirects[j], url)
  {
    match FindRedirect(redirects, url)
    case Some(k) => ItemOutcome(redirects[k], documents)
    case None => if disableNotFound then ReturnNull else NotFound
  }

  /** An earlier entry for the same path shadows every later one. */
  lemma FirstEntryWins(redirects: seq<RedirectItem>, url: string, disableNotFound: bool,
                       documents: (Collection, string) -> Option<Document>, k: nat)
    requires k < |redirects| && Matches(redirects[k], url)
    requires forall j :: 0 <= j < k ==> !Matches(redirects[j], url)
    ensures Resolve(redirects, url, disableNotFound, documents) == ItemOutcome(redirects[k], documents)
  {
  }

  /** A matching entry with no destination at all still redirects, to
      `/undefined/`: the built path always starts with `/`, so the
      `if (redirectUrl)` test never fails. */
  lemma EmptyDestinationRedirects(from: string, documents: (Collection, string) -> Option<Document>)
    ensures ItemOutcome(RedirectItem(Some(from), None), documents) == Redirect("/undefined/")
  {
  }
}
