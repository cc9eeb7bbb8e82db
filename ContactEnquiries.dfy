/** The contact-enquiry list: the same search box and page parameter as the
 *  other lists, a 3-second poll of the current page, and an untyped response
 *  that is unwrapped by trying four shapes in a fixed order. */
module ContactEnquiries {
  import opened Common
  import opened Pagination
  import LC = ListControls

  /** The untyped response (`const response: any`). `null` and `undefined` are
   *  both `JNull`; numbers are integers. */
  datatype Json =
    | JNull
    | JBool(b: bool)
    | JNum(n: int)
    | JStr(s: string)
    | JArr(items: seq<Json>)
    | JObj(fields: map<string, Json>)

  predicate Truthy(j: Json) {
    match j
    case JNull => false
    case JBool(b) => b
    case JNum(n) => n != 0
    case JStr(s) => s != ""
    case JArr(_) => true
    case JObj(_) => true
  }

  /** `j.key` on a value that is not null: undefined unless `j` is an object
   *  holding the key. */
  function Prop(j: Json, key: string): (v: Json)
    ensures j.JObj? && key in j.fields ==> v == j.fields[key]
    ensures !j.JObj? || key !in j.fields ==> v == JNull
  {
    if j.JObj? && key in j.fields then j.fields[key] else JNull
  }

  /** The envelope literal the code builds around a bare array. */
  function SynthesizedJson(items: seq<Json>): Json {
    JObj(map[
      "data" := JArr(items), "current_page" := JNum(1), "links" := JArr([]),
      "total" := JNum(|items|), "from" := JNum(1), "to" := JNum(|items|),
      "last_page" := JNum(1), "path" := JStr(""), "per_page" := JNum(|items|),
      "first_page_url" := JStr(""), "last_page_url" := JStr(""),
      "next_page_url" := JNull, "prev_page_url" := JNull])
  }

  /** The shape chosen by `fetchEnquiries`, or None when reading a property of a
   *  null response throws (the fetch then fails):
   *  1. a truthy `contact_enquiries` wrapper, whatever else is present;
   *  2. otherwise `response.data`, when `response.data.data` is an array;
   *  3. otherwise the response itself, when `response.data` is an array;
   *  4. otherwise a bare array becomes a one-page envelope, and anything else
   *     is kept as it is. */
  function Unwrap(r: Json): (d: Option<Json>)
    ensures d.None? <==> r.JNull?
    ensures !r.JNull? && Truthy(Prop(r, "contact_enquiries"))
      ==> d == Some(Prop(r, "contact_enquiries"))
    ensures !r.JNull? && !Truthy(Prop(r, "contact_enquiries"))
      && Truthy(Prop(r, "data")) && Prop(Prop(r, "data"), "data").JArr?
      ==> d == Some(Prop(r, "data"))
    ensures !r.JNull? && !Truthy(Prop(r, "contact_enquiries"))
      && !Prop(Prop(r, "data"), "data").JArr? && Prop(r, "data").JArr?
      ==> d == Some(r)
    ensures r.JArr? ==> d == Some(SynthesizedJson(r.items))
    ensures !r.JNull? && !r.JArr? && !Truthy(Prop(r, "contact_enquiries"))
      && !Prop(Prop(r, "data"), "data").JArr? && !Prop(r, "data").JArr?
      ==> d == Some(r)
  {
    if r.JNull? then None
    else if Truthy(Prop(r, "contact_enquiries")) then Some(Prop(r, "contact_enquiries"))
    else if Truthy(Prop(r, "data")) && Truthy(Prop(Prop(r, "data"), "data"))
      && Prop(Prop(r, "data"), "data").JArr?
    then Some(Prop(r, "data"))
    else if Truthy(Prop(r, "data")) && Prop(r, "data").JArr? then Some(r)
    else if r.JArr? then Some(SynthesizedJson(r.items))
    else Some(r)
  }

  // ---------------------------------------------------------------------
  // The typed envelope as JSON
  // ---------------------------------------------------------------------

  function NumOrNull(n: Option<int>): Json {
    if n.Some? then JNum(n.value) else JNull
  }

  function StrOrNull(s: Option<string>): Json {
    if s.Some? then JStr(s.value) else JNull
  }

  function LinkJson(l: PageLink): Json {
    JObj(map["url" := StrOrNull(l.url), "label" := JStr(l.text), "active" := JBool(l.active)])
  }

  /** The JSON a server sends for an envelope of rows. */
  function EnvelopeJson(e: Envelope<Json>): (j: Json)
    ensures j.JObj? && Prop(j, "data") == JArr(e.data)
  {
    JObj(map[
      "data" := JArr(e.data), "current_page" := JNum(e.currentPage),
      "links" := JArr(seq(|e.links|, i requires 0 <= i < |e.links| => LinkJson(e.links[i]))),
      "total" := JNum(e.total), "from" := NumOrNull(e.from), "to" := NumOrNull(e.to),
      "last_page" := JNum(e.lastPage), "path" := JStr(e.path), "per_page" := JNum(e.perPage),
      "first_page_url" := JStr(e.firstPageUrl), "last_page_url" := JStr(e.lastPageUrl),
      "next_page_url" := StrOrNull(e.nextPageUrl), "prev_page_url" := StrOrNull(e.prevPageUrl)])
  }

  /** A bare array is unwrapped to exactly the envelope the typed lists build. */
  lemma ArrayAgreesWithTypedLists(items: seq<Json>)
    ensures Unwrap(JArr(items)) == Some(EnvelopeJson(Normalize(RawArray(items))))
  {
    var e := Synthesize(items);
    assert e.links == [];
    assert seq(|e.links|, i requires 0 <= i < |e.links| => LinkJson(e.links[i])) == [];
  }

  /** An envelope arrives as the same pagination whether it is sent bare, wrapped
   *  in `data`, or wrapped in `contact_enquiries`. */
  lemma WrappingsAgree(e: Envelope<Json>)
    ensures Unwrap(EnvelopeJson(e)) == Some(EnvelopeJson(e))
    ensures Unwrap(JObj(map["data" := EnvelopeJson(e)])) == Some(EnvelopeJson(e))
    ensures Unwrap(JObj(map["contact_enquiries" := EnvelopeJson(e)])) == Some(EnvelopeJson(e))
  {
    var j := EnvelopeJson(e);
    assert "contact_enquiries" !in j.fields;
    var wrapped := JObj(map["data" := j]);
    assert "contact_enquiries" !in wrapped.fields;
  }

  /** `pagination.last_page > 1`, with JavaScript's numeric reading of the
   *  value: a string reads as `Number(s)`; an array reads through its text,
   *  so a one-element array reads as its element and any other array, like an
   *  object, `true`, `false` or null, is never above 1. */
  predicate AfterFirstPage(lastPage: Json)
    decreases lastPage
  {
    match lastPage
    case JNum(n) => n > 1
    case JStr(s) => NumberOf(s).Some? && NumberOf(s).value > 1
    case JBool(_) => false
    case JNull => false
    case JArr(items) =>
      if |items| == 1 then
        assert items[0] in items;
        AfterFirstPage(items[0])
      else false
    case JObj(_) => false
  }

  /** `pagination && pagination.links && pagination.last_page > 1`. */
  predicate ControlsShown(p: Json) {
    Truthy(p) && Truthy(Prop(p, "links")) && AfterFirstPage(Prop(p, "last_page"))
  }

  /** Controls show for a server envelope exactly when it has more than one
   *  page, and never for a bare array. */
  lemma ControlsFollowLastPage(e: Envelope<Json>, items: seq<Json>)
    ensures ControlsShown(EnvelopeJson(e)) <==> e.lastPage > 1
    ensures !ControlsShown(SynthesizedJson(items))
  {
  }

  /** A `last_page` sent as text, or wrapped in a one-element array, is read as
   *  the number it holds; an array of any other length is never above the
   *  first page. */
  lemma LastPageReadsThroughTextAndArrays(n: int, items: seq<Json>)
    ensures AfterFirstPage(JStr(DecimalString(n))) <==> n > 1
    ensures AfterFirstPage(JArr([JNum(n)])) <==> n > 1
    ensures AfterFirstPage(JArr([JStr(DecimalString(n))])) <==> n > 1
    ensures |items| != 1 ==> !AfterFirstPage(JArr(items))
  {
    NumberOfDecimalString(n);
    assert AfterFirstPage(JArr([JNum(n)])) == AfterFirstPage(JNum(n));
    assert AfterFirstPage(JArr([JStr(DecimalString(n))])) == AfterFirstPage(JStr(DecimalString(n)));
  }

  /** The pagination after a fetch settles: a response replaces it with the
   *  unwrapped shape; a failure, or a null response, keeps it. */
  function ReceivedJson(shown: Json, outcome: Remote<Json>): (r: Json)
    ensures outcome.Failed? ==> r == shown
    ensures outcome.Succeeded? && outcome.body.JNull? ==> r == shown
    ensures outcome.Succeeded? && !outcome.body.JNull? ==> Some(r) == Unwrap(outcome.body)
  {
    if outcome.Succeeded? && Unwrap(outcome.body).Some? then Unwrap(outcome.body).value else shown
  }

  class EnquiriesView {
    var controls: LC.Controls
    var pagination: Json
    var loading: bool
    var polling: bool

    predicate Valid()
      reads this
    {
      LC.Valid(controls)
    }

    /** Mounting arms the 3 s interval and fetches the page named by the URL. */
    constructor (pageParam: Option<string>)
      ensures Valid()
      ensures controls == LC.Mount(pageParam)
      ensures pagination == JNull && loading && polling
    {
      controls := LC.Mount(pageParam);
      pagination := JNull;
      loading := true;
      polling := true;
    }

    /** The start of `fetchEnquiries`: the spinner flag is raised only while no
     *  pagination exists, and the pagination itself is not touched. */
    method BeginFetch()
      modifies this
      ensures loading == LoadingWhenFetching(old(loading), Truthy(old(pagination)), true)
      ensures pagination == old(pagination) && controls == old(controls) && polling == old(polling)
    {
      loading := LoadingWhenFetching(loading, Truthy(pagination), true);
    }

    /** Typing in the search box. A new term re-creates `fetchEnquiries`, so the
     *  page effect fetches the current page with it at once, besides arming
     *  the debounce timer (and restarting the interval). */
    method TypeSearch(term: string)
      requires Valid()
      modifies this
      ensures Valid()
      ensures controls == LC.TypeAsWritten(old(controls), term)
      ensures term != old(controls).searchTerm ==>
        controls.issued == old(controls).issued + [LC.Query(LC.Page(old(controls)), term)]
      ensures pagination == old(pagination) && polling == old(polling)
      ensures term != old(controls).searchTerm ==>
        loading == LoadingWhenFetching(old(loading), Truthy(old(pagination)), true)
      ensures term == old(controls).searchTerm ==> loading == old(loading)
    {
      var changed := term != controls.searchTerm;
      controls := LC.TypeAsWritten(controls, term);
      if changed {
        BeginFetch();
      }
    }

    method SearchTimerFires()
      requires Valid() && controls.timer.Some?
      modifies this
      ensures Valid()
      ensures controls == LC.FireTimer(old(controls))
      ensures pagination == old(pagination) && polling == old(polling)
      ensures loading == LoadingWhenFetching(old(loading), Truthy(old(pagination)), true)
    {
      controls := LC.FireTimer(controls);
      BeginFetch();
    }

    method ClickPageLink(url: Option<string>, parsed: ParsedUrl)
      requires Valid()
      modifies this
      ensures Valid()
      ensures controls == LC.ClickLink(old(controls), url, parsed)
      ensures pagination == old(pagination) && polling == old(polling)
      ensures loading == LoadingWhenFetching(old(loading), Truthy(old(pagination)),
        |controls.issued| > |old(controls.issued)|)
    {
      var before := |controls.issued|;
      controls := LC.ClickLink(controls, url, parsed);
      if |controls.issued| > before {
        BeginFetch();
      }
    }

    /** An interval tick fetches the current page with the current term. */
    method PollTick()
      requires Valid() && polling
      modifies this
      ensures Valid()
      ensures controls.issued == old(controls.issued) + [LC.Query(LC.Page(old(controls)), old(controls).searchTerm)]
      ensures controls == LC.PageEffect(old(controls))
      ensures pagination == old(pagination) && polling
      ensures loading == LoadingWhenFetching(old(loading), Truthy(old(pagination)), true)
    {
      controls := LC.PageEffect(controls);
      BeginFetch();
    }

    method SettleFetch(outcome: Remote<Json>)
      requires Valid()
      modifies this
      ensures Valid()
      ensures pagination == ReceivedJson(old(pagination), outcome)
      ensures !loading && controls == old(controls) && polling == old(polling)
    {
      pagination := ReceivedJson(pagination, outcome);
      loading := false;
    }

    /** Unmounting runs every effect's cleanup: the interval is cleared, and so
     *  is a pending debounce timer. */
    method Teardown()
      requires Valid()
      modifies this
      ensures Valid()
      ensures !polling && controls.timer.None?
      ensures controls == old(controls).(timer := None)
      ensures pagination == old(pagination) && loading == old(loading)
    {
      polling := false;
      controls := controls.(timer := None);
    }
  }
}
