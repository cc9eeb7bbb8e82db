/** The request builders of the API service layer: the query strings of the
 *  poster and employee listings, the bulk-reorder payload, and the two
 *  multipart bodies that update a poster. The HTTP transport, the bearer
 *  token and the responses are not modelled: each builder returns the request
 *  it hands to the HTTP client. */
module Services {
  import opened Common

  datatype GetRequest = GetRequest(path: string, query: seq<Param>)
  datatype PostRequest = PostRequest(path: string, body: seq<Entry>)

  const PostersPath: string := "/film-poster-designs"
  const EmployeesPath: string := "/employee-photos"

  // ---------------------------------------------------------------------
  // Listing queries
  // ---------------------------------------------------------------------

  /** The poster listing: `page` always, `search` when the term is non-empty,
   *  `year` when a year other than "All" is selected. */
  method GetAllPosters(page: int, search: string, year: string) returns (request: GetRequest)
    ensures request.path == PostersPath
    ensures |request.query| >= 1 && request.query[0] == Pair("page", DecimalString(page))
    ensures DistinctKeys(request.query)
    ensures Lookup(request.query, "search") == if search != "" then Some(search) else None
    ensures Lookup(request.query, "year") == if year != "" && year != "All" then Some(year) else None
    ensures forall i :: 0 <= i < |request.query| ==> request.query[i].key in {"page", "search", "year"}
  {
    var params := new SearchParams();
    params.Append("page", DecimalString(page));
    ghost var ks := {"page"};
    if search != "" {
      AppendFresh(params.pairs, ks, Pair("search", search));
      params.Append("search", search);
      ks := ks + {"search"};
    }
    if year != "" && year != "All" {
      AppendFresh(params.pairs, ks, Pair("year", year));
      params.Append("year", year);
      ks := ks + {"year"};
    }
    request := GetRequest(PostersPath, params.pairs);
    if search != "" {
      LookupSent(request.query, "search", search);
    }
    if year != "" && year != "All" {
      LookupSent(request.query, "year", year);
    }
  }

  /** The employee listing: `page` always, `search` when the term is non-empty. */
  method GetAllEmployees(page: int, search: string) returns (request: GetRequest)
    ensures request.path == EmployeesPath
    ensures |request.query| >= 1 && request.query[0] == Pair("page", DecimalString(page))
    ensures DistinctKeys(request.query)
    ensures Lookup(request.query, "search") == if search != "" then Some(search) else None
    ensures forall i :: 0 <= i < |request.query| ==> request.query[i].key in {"page", "search"}
  {
    var params := new SearchParams();
    params.Append("page", DecimalString(page));
    ghost var ks := {"page"};
    if search != "" {
      AppendFresh(params.pairs, ks, Pair("search", search));
      params.Append("search", search);
      ks := ks + {"search"};
    }
    request := GetRequest(EmployeesPath, params.pairs);
    if search != "" {
      LookupSent(request.query, "search", search);
    }
  }

  // ---------------------------------------------------------------------
  // Bulk reorder
  // ---------------------------------------------------------------------

  /** A row of the reorder screen, in the order the user arranged it. */
  datatype PosterListItem = PosterListItem(id: int, filmName: string, positionNumber: int)

  /** One `{ id, position_number }` element of the `positions` array. */
  datatype PositionUpdate = PositionUpdate(id: int, positionNumber: int)

  /** The HTTP methods the service layer sends with. */
  datatype HttpMethod = Get | Post | Put

  datatype ReorderRequest = ReorderRequest(verb: HttpMethod, path: string, positions: seq<PositionUpdate>)

  function ItemIds(items: seq<PosterListItem>): seq<int> {
    seq(|items|, k requires 0 <= k < |items| => items[k].id)
  }

  function UpdateIds(ps: seq<PositionUpdate>): seq<int> {
    seq(|ps|, k requires 0 <= k < |ps| => ps[k].id)
  }

  function PositionSet(ps: seq<PositionUpdate>): set<int> {
    set u | u in ps :: u.positionNumber
  }

  /** The PUT body: every item, in list order, renumbered `index + 1`. */
  function UpdatePosterOrder(items: seq<PosterListItem>): (r: ReorderRequest)
    ensures r.verb == Put && r.path == PostersPath + "/reorder"
  {
    ReorderRequest(Put, PostersPath + "/reorder",
      seq(|items|, k requires 0 <= k < |items| => PositionUpdate(items[k].id, k + 1)))
  }

  /** One payload entry per item, in the items' order, carrying the same ids. */
  lemma ReorderKeepsIdsInOrder(items: seq<PosterListItem>)
    ensures |UpdatePosterOrder(items).positions| == |items|
    ensures UpdateIds(UpdatePosterOrder(items).positions) == ItemIds(items)
  {
  }

  /** The positions sent are exactly 1..N: dense, distinct, and the k-th entry carries k+1. */
  lemma ReorderPositionsAreOneToN(items: seq<PosterListItem>)
    ensures var ps := UpdatePosterOrder(items).positions;
      && (forall k :: 0 <= k < |ps| ==> ps[k].positionNumber == k + 1)
      && (forall i, j :: 0 <= i < j < |ps| ==> ps[i].positionNumber != ps[j].positionNumber)
      && (forall p :: p in PositionSet(ps) <==> 1 <= p <= |items|)
  {
    var ps := UpdatePosterOrder(items).positions;
    forall p | 1 <= p <= |items| ensures p in PositionSet(ps) {
      assert ps[p - 1] in ps;
    }
    forall p | p in PositionSet(ps) ensures 1 <= p <= |items| {
      var u :| u in ps && u.positionNumber == p;
    }
  }

  /** The incoming `position_number` values play no part in the payload. */
  lemma ReorderIgnoresIncomingPositions(a: seq<PosterListItem>, b: seq<PosterListItem>)
    requires ItemIds(a) == ItemIds(b)
    ensures UpdatePosterOrder(a) == UpdatePosterOrder(b)
  {
    assert |a| == |ItemIds(a)| == |ItemIds(b)| == |b|;
    forall k | 0 <= k < |a| ensures a[k].id == b[k].id {
      assert ItemIds(a)[k] == ItemIds(b)[k];
    }
  }

  // ---------------------------------------------------------------------
  // Multipart updates
  // ---------------------------------------------------------------------

  /** `position_number?: string | number`. */
  datatype PositionValue = PositionString(text: string) | PositionInt(n: int)

  /** The fields of a poster that the status toggle reads. */
  datatype FilmPoster = FilmPoster(
    id: int, filmName: string, year: string, language: string, genre: string,
    imdbRating: string, trailerLink: string, description: string, status: string,
    positionNumber: Option<PositionValue>, kind: Option<string>)

  /** `if (poster.position_number)`: absent, "" and 0 are falsy. */
  predicate PositionPresent(p: Option<PositionValue>) {
    match p
    case None => false
    case Some(PositionString(t)) => t != ""
    case Some(PositionInt(n)) => n != 0
  }

  /** `poster.position_number.toString()`. */
  function PositionText(p: PositionValue): string {
    match p
    case PositionString(t) => t
    case PositionInt(n) => DecimalString(n)
  }

  /** `poster.type || 'Movie'`. */
  function TypeOrMovie(kind: Option<string>): (t: string)
    ensures t != ""
    ensures kind.Some? && kind.value != "" ==> t == kind.value
    ensures kind.None? || kind.value == "" ==> t == "Movie"
  {
    if kind.Some? && kind.value != "" then kind.value else "Movie"
  }

  const StatusFormKeys: set<string> := {"_method", "status", "film_name", "year", "language",
    "genre", "imdb_rating", "type", "description", "trailer_link", "position_number"}

  /** The fields the status toggle always sends, in the order it appends them. */
  function StatusRequired(poster: FilmPoster, newStatus: string): seq<Entry> {
    [Pair("_method", Text("PATCH")), Pair("status", Text(newStatus)),
     Pair("film_name", Text(poster.filmName)), Pair("year", Text(poster.year)),
     Pair("language", Text(poster.language)), Pair("genre", Text(poster.genre)),
     Pair("imdb_rating", Text(poster.imdbRating)), Pair("type", Text(TypeOrMovie(poster.kind)))]
  }

  /** One text entry when the guard holds, nothing otherwise. */
  function TextIf(present: bool, key: string, text: string): seq<Entry> {
    if present then [Pair(key, Text(text))] else []
  }

  /** The fields the status toggle sends only when they are truthy. */
  function StatusOptional(poster: FilmPoster): seq<Entry> {
    TextIf(poster.description != "", "description", poster.description)
    + TextIf(poster.trailerLink != "", "trailer_link", poster.trailerLink)
    + PositionField(poster)
  }

  /** The PATCH body of the status toggle. */
  function StatusBody(poster: FilmPoster, newStatus: string): seq<Entry> {
    StatusRequired(poster, newStatus) + StatusOptional(poster)
  }

  lemma StatusRequiredKeys(poster: FilmPoster, newStatus: string)
    ensures var r := StatusRequired(poster, newStatus);
      && DistinctKeys(r) && KeysIn(r, StatusFormKeys)
      && Omitted(r, "description") && Omitted(r, "trailer_link") && Omitted(r, "position_number")
  {
  }

  lemma StatusOptionalKeys(poster: FilmPoster)
    ensures var o := StatusOptional(poster);
      && DistinctKeys(o) && KeysIn(o, {"description", "trailer_link", "position_number"})
  {
  }

  /** The status body never repeats a key and uses only the update endpoint's field names. */
  lemma StatusBodyWellFormed(poster: FilmPoster, newStatus: string)
    ensures DistinctKeys(StatusBody(poster, newStatus))
    ensures KeysIn(StatusBody(poster, newStatus), StatusFormKeys)
  {
    var r := StatusRequired(poster, newStatus);
    var o := StatusOptional(poster);
    StatusRequiredKeys(poster, newStatus);
    StatusOptionalKeys(poster);
    DistinctConcat(r, o);
    KeysInConcat(r, o, StatusFormKeys);
  }

  /** Every always-sent field reads back with the poster's value, the new status
   *  and the method override `PATCH`. */
  lemma StatusBodyRequiredFields(poster: FilmPoster, newStatus: string)
    ensures var body := StatusBody(poster, newStatus);
      && Lookup(body, "_method") == Some(Text("PATCH"))
      && Lookup(body, "status") == Some(Text(newStatus))
      && Lookup(body, "film_name") == Some(Text(poster.filmName))
      && Lookup(body, "year") == Some(Text(poster.year))
      && Lookup(body, "language") == Some(Text(poster.language))
      && Lookup(body, "genre") == Some(Text(poster.genre))
      && Lookup(body, "imdb_rating") == Some(Text(poster.imdbRating))
      && Lookup(body, "type") == Some(Text(TypeOrMovie(poster.kind)))
  {
    var body := StatusBody(poster, newStatus);
    StatusBodyWellFormed(poster, newStatus);
    assert body[..8] == StatusRequired(poster, newStatus);
    LookupSent(body, "_method", Text("PATCH"));
    LookupSent(body, "status", Text(newStatus));
    LookupSent(body, "film_name", Text(poster.filmName));
    LookupSent(body, "year", Text(poster.year));
    LookupSent(body, "language", Text(poster.language));
    LookupSent(body, "genre", Text(poster.genre));
    LookupSent(body, "imdb_rating", Text(poster.imdbRating));
    LookupSent(body, "type", Text(TypeOrMovie(poster.kind)));
  }

  function PositionField(poster: FilmPoster): seq<Entry> {
    TextIf(PositionPresent(poster.positionNumber), "position_number",
      if PositionPresent(poster.positionNumber) then PositionText(poster.positionNumber.value) else "")
  }

  /** The description is sent exactly when it is non-empty. */
  lemma StatusBodyDescription(poster: FilmPoster, newStatus: string)
    ensures Lookup(StatusBody(poster, newStatus), "description")
      == if poster.description != "" then Some(Text(poster.description)) else None
  {
    var r := StatusRequired(poster, newStatus);
    var o := StatusOptional(poster);
    StatusRequiredKeys(poster, newStatus);
    LookupSkip(r, o, "description");
  }

  /** The trailer link is sent exactly when it is non-empty. */
  lemma StatusBodyTrailerLink(poster: FilmPoster, newStatus: string)
    ensures Lookup(StatusBody(poster, newStatus), "trailer_link")
      == if poster.trailerLink != "" then Some(Text(poster.trailerLink)) else None
  {
    var r := StatusRequired(poster, newStatus);
    var d := TextIf(poster.description != "", "description", poster.description);
    var t := TextIf(poster.trailerLink != "", "trailer_link", poster.trailerLink);
    var p := PositionField(poster);
    assert StatusOptional(poster) == d + (t + p);
    StatusRequiredKeys(poster, newStatus);
    LookupSkip(r, d + (t + p), "trailer_link");
    LookupSkip(d, t + p, "trailer_link");
  }

  /** The position is sent, as its string form, exactly when it is truthy. */
  lemma StatusBodyPosition(poster: FilmPoster, newStatus: string)
    ensures Lookup(StatusBody(poster, newStatus), "position_number")
      == if PositionPresent(poster.positionNumber)
         then Some(Text(PositionText(poster.positionNumber.value))) else None
  {
    var r := StatusRequired(poster, newStatus);
    var d := TextIf(poster.description != "", "description", poster.description);
    var t := TextIf(poster.trailerLink != "", "trailer_link", poster.trailerLink);
    var p := PositionField(poster);
    assert StatusOptional(poster) == (d + t) + p;
    StatusRequiredKeys(poster, newStatus);
    LookupSkip(r, (d + t) + p, "position_number");
    LookupSkip(d + t, p, "position_number");
  }

  /** `updatePosterStatus` builds the PATCH body field by field on a fresh FormData. */
  method UpdatePosterStatus(poster: FilmPoster, newStatus: string) returns (request: PostRequest)
    ensures request.path == PostersPath + "/" + DecimalString(poster.id)
    ensures request.body == StatusBody(poster, newStatus)
  {
    var form := new FormData();
    form.Append("_method", Text("PATCH"));
    form.Append("status", Text(newStatus));
    form.Append("film_name", Text(poster.filmName));
    form.Append("year", Text(poster.year));
    form.Append("language", Text(poster.language));
    form.Append("genre", Text(poster.genre));
    form.Append("imdb_rating", Text(poster.imdbRating));
    form.Append("type", Text(TypeOrMovie(poster.kind)));
    assert form.entries == StatusRequired(poster, newStatus);
    if poster.description != "" {
      form.Append("description", Text(poster.description));
    }
    if poster.trailerLink != "" {
      form.Append("trailer_link", Text(poster.trailerLink));
    }
    if PositionPresent(poster.positionNumber) {
      form.Append("position_number", Text(PositionText(poster.positionNumber.value)));
    }
    request := PostRequest(PostersPath + "/" + DecimalString(poster.id), form.entries);
  }

  /** `updatePoster` adds the method override to the caller's own FormData
   *  before posting it to the poster's URL. */
  method UpdatePoster(id: int, posterData: FormData) returns (path: string)
    modifies posterData
    ensures posterData.entries == old(posterData.entries) + [Pair("_method", Text("PUT"))]
    ensures Omitted(old(posterData.entries), "_method")
      ==> Lookup(posterData.entries, "_method") == Some(Text("PUT"))
    ensures path == PostersPath + "/" + DecimalString(id)
  {
    if Omitted(posterData.entries, "_method") {
      LookupAppendFresh(posterData.entries, Pair("_method", Text("PUT")));
    }
    posterData.Append("_method", Text("PUT"));
    path := PostersPath + "/" + DecimalString(id);
  }
}
