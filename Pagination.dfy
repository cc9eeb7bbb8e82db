/** The Laravel-style paginated envelope the listing endpoints return, and the
 *  rules the list views apply to it: turning a bare array into a one-page
 *  envelope, the row serial numbers, when the page links are shown and
 *  enabled, the `page` query parameter, and what a click on a page link does. */
module Pagination {
  import opened Common

  /** One entry of `links`: a page button. */
  datatype PageLink = PageLink(url: Option<string>, text: string, active: bool)

  /** `PaginatedResponse<T>`. `from` and `to` are null on an empty page. */
  datatype Envelope<T> = Envelope(
    data: seq<T>, currentPage: int, links: seq<PageLink>, total: int,
    from: Option<int>, to: Option<int>, lastPage: int, path: string, perPage: int,
    firstPageUrl: string, lastPageUrl: string,
    nextPageUrl: Option<string>, prevPageUrl: Option<string>)

  /** What a listing endpoint may answer: a bare array or an envelope. */
  datatype ListBody<T> = RawArray(items: seq<T>) | Paged(envelope: Envelope<T>)

  /** The one-page envelope the views build around a bare array. */
  function Synthesize<T>(items: seq<T>): (e: Envelope<T>)
    ensures e.data == items
  {
    Envelope(items, 1, [], |items|, Some(1), Some(|items|), 1, "", |items|, "", "", None, None)
  }

  /** `Array.isArray(response) ? synthesized : response`. */
  function Normalize<T>(body: ListBody<T>): (e: Envelope<T>)
    ensures body.Paged? ==> e == body.envelope
    ensures body.RawArray? ==> e == Synthesize(body.items)
  {
    match body
    case RawArray(items) => Synthesize(items)
    case Paged(envelope) => envelope
  }

  /** `(pagination?.from || 1) + index`: the number shown in a row's first cell. */
  function RowSerial(from: Option<int>, index: nat): (n: int)
    ensures from.Some? && from.value != 0 ==> n == from.value + index
    ensures from.None? || from.value == 0 ==> n == 1 + index
  {
    (if from.Some? && from.value != 0 then from.value else 1) + index
  }

  /** `pagination && pagination.links && pagination.links.length > 3`. */
  predicate ControlsShown<T>(p: Option<Envelope<T>>) {
    p.Some? && |p.value.links| > 3
  }

  /** `disabled={!link.url || link.active}`. */
  predicate LinkDisabled(link: PageLink) {
    link.url.None? || link.url.value == "" || link.active
  }

  /** The rows of a synthesized envelope are numbered 1..N in order, and its last
   *  serial is the envelope's `to`. */
  lemma SynthesizedSerials<T>(items: seq<T>)
    ensures var e := Synthesize(items);
      (forall k :: 0 <= k < |items| ==> RowSerial(e.from, k) == k + 1)
      && (|items| > 0 ==> Some(RowSerial(e.from, |items| - 1)) == e.to)
  {
  }

  /** A synthesized envelope is a single page: it never shows page controls and
   *  it claims every item as both its page size and its total. */
  lemma SynthesizedIsOnePage<T>(items: seq<T>)
    ensures !ControlsShown(Some(Synthesize(items)))
    ensures var e := Synthesize(items);
      e.currentPage == e.lastPage == 1 && e.total == e.perPage == |e.data|
      && e.nextPageUrl.None? && e.prevPageUrl.None?
  {
  }

  /** An envelope the server sent is kept exactly, and normalising twice changes
   *  nothing. */
  lemma NormalizeIdempotent<T>(body: ListBody<T>)
    ensures Normalize(Paged(Normalize(body))) == Normalize(body)
  {
  }

  /** The pagination state after a fetch settles: a response replaces it with
   *  its normalised envelope; a failure keeps what was shown before. */
  function Received<T>(shown: Option<Envelope<T>>, outcome: Remote<ListBody<T>>): (r: Option<Envelope<T>>)
    ensures outcome.Failed? ==> r == shown
    ensures outcome.Succeeded? ==> r == Some(Normalize(outcome.body))
    ensures outcome.Succeeded? && outcome.body.RawArray? ==> !ControlsShown(r)
  {
    if outcome.Succeeded? then
      SynthesizedIsOnePage(if outcome.body.RawArray? then outcome.body.items else []);
      Some(Normalize(outcome.body))
    else shown
  }

  /** `pagination?.data || []`: the rows a table shows. */
  function Rows<T>(p: Option<Envelope<T>>): (rows: seq<T>)
    ensures p.None? ==> rows == []
    ensures p.Some? ==> rows == p.value.data
  {
    if p.Some? then p.value.data else []
  }

  /** What a table shows after a fetch settles: exactly the rows of the
   *  response, whichever of the two shapes it had, or the rows shown before
   *  when the fetch failed. */
  lemma RowsAfterFetch<T>(shown: Option<Envelope<T>>, outcome: Remote<ListBody<T>>)
    ensures outcome.Failed? ==> Rows(Received(shown, outcome)) == Rows(shown)
    ensures outcome.Succeeded? && outcome.body.RawArray? ==> Rows(Received(shown, outcome)) == outcome.body.items
    ensures outcome.Succeeded? && outcome.body.Paged? ==>
      Rows(Received(shown, outcome)) == outcome.body.envelope.data
  {
  }

  /** `if (!pagination) setLoading(true)` when a fetch starts: the spinner flag
   *  is raised only while nothing has been loaded yet. */
  function LoadingWhenFetching(loading: bool, hasData: bool, started: bool): (r: bool)
    ensures started && !hasData ==> r
    ensures !started || hasData ==> r == loading
  {
    loading || (started && !hasData)
  }

  /** `if (!pagination) setError(message)` in a fetch's failure path: the error
   *  screen appears only when nothing was loaded before; it is never cleared. */
  function ErrorAfterFetch(error: string, hadData: bool, failed: bool, message: string): (r: string)
    ensures failed && !hadData ==> r == message
    ensures !failed || hadData ==> r == error
  {
    if failed && !hadData then message else error
  }

  // ---------------------------------------------------------------------
  // The `page` query parameter
  // ---------------------------------------------------------------------

  /** `Number(searchParams.get('page')) || 1`: a missing, empty, zero or
   *  non-numeric parameter gives page 1. */
  function CurrentPage(raw: Option<string>): (page: int)
    ensures page != 0
    ensures page == 1 || (raw.Some? && NumberOf(raw.value) == Some(page))
    ensures raw.None? ==> page == 1
    ensures raw.Some? && NumberOf(raw.value).None? ==> page == 1
    ensures raw.Some? && NumberOf(raw.value).Some? && NumberOf(raw.value).value != 0 ==>
      page == NumberOf(raw.value).value
  {
    if raw.Some? && NumberOf(raw.value).Some? && NumberOf(raw.value).value != 0
    then NumberOf(raw.value).value
    else 1
  }

  /** Writing a page number into the parameter reads back the same page. */
  lemma CurrentPageRoundTrip(n: int)
    requires n != 0
    ensures CurrentPage(Some(DecimalString(n))) == n
  {
    NumberOfDecimalString(n);
  }

  /** What `new URL(url)` gives for a link's url: an exception, or the value of
   *  its `page` search parameter. */
  datatype ParsedUrl = Unparsable | Parsed(pageParam: Option<string>)

  /** `handlePageChange(url)`: the page parameter to navigate to, if any. A
   *  missing url, an unparsable url, or a url without a (non-empty) `page`
   *  parameter changes nothing. */
  function PageFromLink(url: Option<string>, parsed: ParsedUrl): (r: Option<string>)
    ensures r.Some? <==> (url.Some? && url.value != "" && parsed.Parsed?
                          && parsed.pageParam.Some? && parsed.pageParam.value != "")
    ensures r.Some? ==> r == parsed.pageParam
  {
    if url.None? || url.value == "" then None
    else if parsed.Unparsable? then None
    else if parsed.pageParam.Some? && parsed.pageParam.value != "" then parsed.pageParam
    else None
  }

  /** A disabled button never navigates: a link without a url yields no page. */
  lemma DisabledLinkWithoutUrlIsInert(link: PageLink, parsed: ParsedUrl)
    requires link.url.None? || link.url.value == ""
    ensures LinkDisabled(link) && PageFromLink(link.url, parsed).None?
  {
  }
}
