/** The search box and page parameter shared by the user, contact-enquiry and
 *  client lists: the debounce effect over the refs `isFirstRender` and
 *  `prevSearchTerm`, the effect that fetches the current page, and what a
 *  keystroke, the debounce timer, a page link and a response each cause.
 *
 *  The three components declare their effects with React dependency lists.
 *  As written, the fetch callback is memoised on the search term (and, in the
 *  client list, on the loaded page too) and the page effect depends on the
 *  callback, so a keystroke, or a successful response, re-runs the page
 *  effect. The functions named `...AsWritten` model that; the others model the
 *  intended behaviour, where only a change of page runs the page effect and
 *  the debounce timer alone turns typing into a request. */
module ListControls {
  import opened Common
  import opened Pagination

  /** One call to a listing endpoint. */
  datatype Query = Query(page: int, search: string)

  /** The armed 500 ms debounce timer; its callback closes over the term and
   *  the page of the render whose effect armed it. */
  datatype PendingSearch = PendingSearch(term: string, page: int)

  /** The search and paging state of a list view, and the requests it has made. */
  datatype Controls = Controls(
    searchTerm: string, pageParam: Option<string>,
    isFirstRender: bool, prevSearchTerm: string,
    timer: Option<PendingSearch>, issued: seq<Query>)

  function Page(c: Controls): int {
    CurrentPage(c.pageParam)
  }

  /** Between events: the first render is over, the ref holds the current term,
   *  and a pending timer belongs to the current term and page. */
  predicate Valid(c: Controls) {
    && !c.isFirstRender
    && c.prevSearchTerm == c.searchTerm
    && (c.timer.Some? ==> c.timer.value == PendingSearch(c.searchTerm, Page(c)))
  }

  /** One run of the search effect, after React has run the previous run's
   *  cleanup (which clears the pending timer). */
  function SearchEffect(c: Controls): (r: Controls)
    ensures r.searchTerm == c.searchTerm && r.pageParam == c.pageParam && r.issued == c.issued
    ensures !r.isFirstRender
    ensures c.isFirstRender ==> r.prevSearchTerm == c.prevSearchTerm && r.timer.None?
    ensures !c.isFirstRender ==> r.prevSearchTerm == c.searchTerm
    ensures r.timer.Some? <==> !c.isFirstRender && c.searchTerm != c.prevSearchTerm
    ensures r.timer.Some? ==> r.timer.value == PendingSearch(c.searchTerm, Page(c))
  {
    if c.isFirstRender then c.(isFirstRender := false, timer := None)
    else if c.searchTerm == c.prevSearchTerm then c.(timer := None)
    else c.(prevSearchTerm := c.searchTerm, timer := Some(PendingSearch(c.searchTerm, Page(c))))
  }

  /** One run of the page effect: fetch the current page with the current term. */
  function PageEffect(c: Controls): (r: Controls)
    ensures r.issued == c.issued + [Query(Page(c), c.searchTerm)]
    ensures r.(issued := c.issued) == c
  {
    c.(issued := c.issued + [Query(Page(c), c.searchTerm)])
  }

  /** Mounting: the search effect's first run only clears the flag; the page
   *  effect fetches the page named by the URL with the empty term. */
  function Mount(pageParam: Option<string>): (c: Controls)
    ensures Valid(c) && c.timer.None? && c.searchTerm == ""
    ensures c.pageParam == pageParam
    ensures c.issued == [Query(CurrentPage(pageParam), "")]
  {
    PageEffect(SearchEffect(Controls("", pageParam, true, "", None, [])))
  }

  /** A keystroke. Typing the current term again does not re-render. Otherwise
   *  the search effect re-runs and arms a timer for the new term; nothing is
   *  fetched yet. */
  function Type(c: Controls, term: string): (r: Controls)
    requires Valid(c)
    ensures Valid(r)
    ensures r.searchTerm == term && r.pageParam == c.pageParam
    ensures r.issued == c.issued
    ensures r.timer == if term != c.searchTerm then Some(PendingSearch(term, Page(c))) else c.timer
  {
    if term == c.searchTerm then c else SearchEffect(c.(searchTerm := term))
  }

  /** A keystroke as the components are written: the fetch callback changes with
   *  the term, so the page effect runs too and fetches the current page at once. */
  function TypeAsWritten(c: Controls, term: string): (r: Controls)
    requires Valid(c)
    ensures Valid(r)
    ensures r.searchTerm == term && r.pageParam == c.pageParam
    ensures r.issued == c.issued + (if term != c.searchTerm then [Query(Page(c), term)] else [])
    ensures r.timer == if term != c.searchTerm then Some(PendingSearch(term, Page(c))) else c.timer
  {
    if term == c.searchTerm then c else PageEffect(SearchEffect(c.(searchTerm := term)))
  }

  /** `setSearchParams({ page: p })`. A new query string re-creates
   *  `setSearchParams`, so the search effect re-runs (its cleanup cancels a
   *  pending timer); the page effect runs when the numeric page changes. */
  function SetPage(c: Controls, p: string): (r: Controls)
    requires Valid(c)
    ensures Valid(r)
    ensures r.pageParam == Some(p) && r.searchTerm == c.searchTerm
    ensures c.pageParam == Some(p) ==> r == c
    ensures c.pageParam != Some(p) ==> r.timer.None?
    ensures Page(r) != Page(c) ==> r.issued == c.issued + [Query(Page(r), c.searchTerm)]
    ensures Page(r) == Page(c) ==> r.issued == c.issued
  {
    if c.pageParam == Some(p) then c
    else
      var moved := SearchEffect(c.(pageParam := Some(p)));
      if CurrentPage(Some(p)) == Page(c) then moved else PageEffect(moved)
  }

  lemma PageOne()
    ensures CurrentPage(Some("1")) == 1
  {
    CurrentPageRoundTrip(1);
  }

  /** The debounce timer fires: off page 1 it only resets the page parameter,
   *  whose change fetches page 1; on page 1 it fetches page 1 itself. Either
   *  way exactly one request goes out, for page 1 and the current term. */
  function FireTimer(c: Controls): (r: Controls)
    requires Valid(c) && c.timer.Some?
    ensures Valid(r) && r.timer.None?
    ensures r.searchTerm == c.searchTerm && Page(r) == 1
    ensures r.issued == c.issued + [Query(1, c.searchTerm)]
    ensures Page(c) != 1 ==> r.pageParam == Some("1")
    ensures Page(c) == 1 ==> r.pageParam == c.pageParam
  {
    PageOne();
    var t := c.timer.value;
    var fired := c.(timer := None);
    if t.page != 1 then SetPage(fired, "1")
    else fired.(issued := fired.issued + [Query(1, t.term)])
  }

  /** A click on a page link: navigates when the link yields a page parameter. */
  function ClickLink(c: Controls, url: Option<string>, parsed: ParsedUrl): (r: Controls)
    requires Valid(c)
    ensures Valid(r)
    ensures PageFromLink(url, parsed).None? ==> r == c
    ensures PageFromLink(url, parsed).Some? ==> r == SetPage(c, PageFromLink(url, parsed).value)
  {
    match PageFromLink(url, parsed)
    case None => c
    case Some(p) => SetPage(c, p)
  }

  // ---------------------------------------------------------------------
  // Bursts of typing
  // ---------------------------------------------------------------------

  /** The term in the box after typing `terms` starting from `start`. */
  function LastTerm(start: string, terms: seq<string>): string {
    if terms == [] then start else terms[|terms| - 1]
  }

  /** Every keystroke of the burst changes the term. */
  predicate EachChanges(start: string, terms: seq<string>) {
    forall i :: 0 <= i < |terms| ==> terms[i] != LastTerm(start, terms[..i])
  }

  function TypeAll(c: Controls, terms: seq<string>): (r: Controls)
    requires Valid(c)
    ensures Valid(r)
    decreases |terms|
  {
    if terms == [] then c else TypeAll(Type(c, terms[0]), terms[1..])
  }

  function TypeAllAsWritten(c: Controls, terms: seq<string>): (r: Controls)
    requires Valid(c)
    ensures Valid(r)
    decreases |terms|
  {
    if terms == [] then c else TypeAllAsWritten(TypeAsWritten(c, terms[0]), terms[1..])
  }

  lemma LastTermStep(start: string, terms: seq<string>)
    requires terms != []
    ensures LastTerm(terms[0], terms[1..]) == LastTerm(start, terms)
  {
  }

  lemma EachChangesStep(start: string, terms: seq<string>)
    requires terms != [] && EachChanges(start, terms)
    ensures terms[0] != start && EachChanges(terms[0], terms[1..])
  {
    assert terms[..0] == [];
    forall i | 0 <= i < |terms[1..]|
      ensures terms[1..][i] != LastTerm(terms[0], terms[1..][..i])
    {
      assert terms[1..][..i] == terms[1..i + 1];
      assert terms[..i + 1][1..] == terms[1..i + 1];
      LastTermStep(start, terms[..i + 1]);
    }
  }

  /** Typing, however long, makes no request; it leaves the page alone, and the
   *  box holds the last term typed. */
  lemma {:induction false} TypingNeverFetches(c: Controls, terms: seq<string>)
    requires Valid(c)
    ensures var r := TypeAll(c, terms);
      r.issued == c.issued && r.pageParam == c.pageParam
      && r.searchTerm == LastTerm(c.searchTerm, terms)
    decreases |terms|
  {
    if terms != [] {
      TypingNeverFetches(Type(c, terms[0]), terms[1..]);
      LastTermStep(c.searchTerm, terms);
    }
  }

  /** After a burst of changing keystrokes, one timer is pending, for the last
   *  term and the page the burst started on. */
  lemma {:induction false} BurstArmsLastTerm(c: Controls, terms: seq<string>)
    requires Valid(c) && terms != [] && EachChanges(c.searchTerm, terms)
    ensures TypeAll(c, terms).timer == Some(PendingSearch(terms[|terms| - 1], Page(c)))
    decreases |terms|
  {
    EachChangesStep(c.searchTerm, terms);
    if |terms| > 1 {
      BurstArmsLastTerm(Type(c, terms[0]), terms[1..]);
    } else {
      assert terms[1..] == [];
    }
  }

  /** The debounce as intended: a burst of changing keystrokes followed by the
   *  timer makes exactly one request, for page 1 and the last term. */
  lemma DebouncedSearchFetchesOnce(c: Controls, terms: seq<string>)
    requires Valid(c) && terms != [] && EachChanges(c.searchTerm, terms)
    ensures TypeAll(c, terms).timer.Some?
    ensures FireTimer(TypeAll(c, terms)).issued == c.issued + [Query(1, terms[|terms| - 1])]
  {
    BurstArmsLastTerm(c, terms);
    TypingNeverFetches(c, terms);
  }

  /** As written, every changing keystroke fetches the current page with the
   *  new term at once, before any timer fires. */
  lemma {:induction false} KeystrokesFetchAsWritten(c: Controls, terms: seq<string>)
    requires Valid(c) && EachChanges(c.searchTerm, terms)
    ensures TypeAllAsWritten(c, terms).issued
      == c.issued + seq(|terms|, i requires 0 <= i < |terms| => Query(Page(c), terms[i]))
    decreases |terms|
  {
    if terms != [] {
      EachChangesStep(c.searchTerm, terms);
      var next := TypeAsWritten(c, terms[0]);
      KeystrokesFetchAsWritten(next, terms[1..]);
      assert Page(next) == Page(c);
    }
  }

  /** A concrete run: on page 1 with an empty box, typing "a" then "ab" sends two
   *  requests before the timer fires, and a third when it fires. */
  lemma TwoKeystrokesThreeRequestsAsWritten()
    ensures var c := Mount(None);
      var typed := TypeAllAsWritten(c, ["a", "ab"]);
      typed.issued == [Query(1, ""), Query(1, "a"), Query(1, "ab")]
      && typed.timer.Some?
      && FireTimer(typed).issued == [Query(1, ""), Query(1, "a"), Query(1, "ab"), Query(1, "ab")]
  {
    var c := Mount(None);
    var terms := ["a", "ab"];
    assert EachChanges(c.searchTerm, terms) by {
      assert terms[..0] == [] && terms[..1] == ["a"];
    }
    KeystrokesFetchAsWritten(c, terms);
  }

  // ---------------------------------------------------------------------
  // Event traces
  // ---------------------------------------------------------------------

  /** What can happen to a mounted list view. */
  datatype Event =
    | Keystroke(term: string)
    | TimerFires
    | LinkClicked(url: Option<string>, parsed: ParsedUrl)
    | ResponseArrived(succeeded: bool)

  /** One event, as intended: responses only update the data shown. */
  function Step(c: Controls, e: Event): (r: Controls)
    requires Valid(c)
    ensures Valid(r)
  {
    match e
    case Keystroke(term) => Type(c, term)
    case TimerFires => if c.timer.Some? then FireTimer(c) else c
    case LinkClicked(url, parsed) => ClickLink(c, url, parsed)
    case ResponseArrived(_) => c
  }

  /** One event as the client list is written: its fetch callback is memoised on
   *  the loaded page as well, so a successful response re-creates it and both
   *  effects run again: the page is fetched anew and a pending timer is cancelled. */
  function StepClientsAsWritten(c: Controls, e: Event): (r: Controls)
    requires Valid(c)
    ensures Valid(r)
  {
    match e
    case Keystroke(term) => TypeAsWritten(c, term)
    case TimerFires => if c.timer.Some? then FireTimer(c) else c
    case LinkClicked(url, parsed) => ClickLink(c, url, parsed)
    case ResponseArrived(succeeded) => if succeeded then PageEffect(SearchEffect(c)) else c
  }

  function Run(c: Controls, events: seq<Event>): (r: Controls)
    requires Valid(c)
    ensures Valid(r)
    decreases |events|
  {
    if events == [] then c else Run(Step(c, events[0]), events[1..])
  }

  function RunClientsAsWritten(c: Controls, events: seq<Event>): (r: Controls)
    requires Valid(c)
    ensures Valid(r)
    decreases |events|
  {
    if events == [] then c else RunClientsAsWritten(StepClientsAsWritten(c, events[0]), events[1..])
  }

  /** The events that may send a request: a timer firing and a page link. */
  function Triggers(events: seq<Event>): nat
    decreases |events|
  {
    if events == [] then 0
    else (if events[0].TimerFires? || events[0].LinkClicked? then 1 else 0) + Triggers(events[1..])
  }

  /** As intended, requests are bounded by timers and clicks: keystrokes and
   *  responses never send one, so the view goes quiet when the user stops. */
  lemma {:induction false} RequestsBoundedByTriggers(c: Controls, events: seq<Event>)
    requires Valid(c)
    ensures |Run(c, events).issued| <= |c.issued| + Triggers(events)
    decreases |events|
  {
    if events != [] {
      RequestsBoundedByTriggers(Step(c, events[0]), events[1..]);
    }
  }

  /** As the client list is written, every successful response sends another
   *  request for the same page: a run of n successes makes n more requests and
   *  the list never goes quiet while the server answers. */
  lemma {:induction false} SuccessesRefetchAsWritten(c: Controls, n: nat)
    requires Valid(c)
    ensures var r := RunClientsAsWritten(c, seq(n, _ => ResponseArrived(true)));
      r.issued == c.issued + seq(n, _ => Query(Page(c), c.searchTerm))
    decreases n
  {
    if n > 0 {
      var events := seq(n, _ => ResponseArrived(true));
      var next := StepClientsAsWritten(c, events[0]);
      assert events[1..] == seq(n - 1, _ => ResponseArrived(true));
      SuccessesRefetchAsWritten(next, n - 1);
      assert next.issued == c.issued + [Query(Page(c), c.searchTerm)];
      assert Page(next) == Page(c) && next.searchTerm == c.searchTerm;
      assert [Query(Page(c), c.searchTerm)] + seq(n - 1, _ => Query(Page(c), c.searchTerm))
        == seq(n, _ => Query(Page(c), c.searchTerm));
    }
  }

  /** As intended, a run of responses leaves the controls exactly as they were. */
  lemma {:induction false} ResponsesAreQuiet(c: Controls, n: nat)
    requires Valid(c)
    ensures Run(c, seq(n, _ => ResponseArrived(true))) == c
    decreases n
  {
    if n > 0 {
      assert seq(n, _ => ResponseArrived(true))[1..] == seq(n - 1, _ => ResponseArrived(true));
      ResponsesAreQuiet(c, n - 1);
    }
  }
}
