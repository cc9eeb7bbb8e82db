/** The user list: a paginated table driven by the `page` query parameter and
 *  a debounced search box. */
module UserList {
  import opened Common
  import opened Pagination
  import LC = ListControls

  datatype User = User(
    id: int, name: string, email: string, role: string, phoneNumber: string,
    countryCode: string, country: string, createdAt: Option<string>)

  class UserListView {
    var controls: LC.Controls
    var pagination: Option<Envelope<User>>
    var loading: bool

    predicate Valid()
      reads this
    {
      LC.Valid(controls)
    }

    /** The full-page spinner replaces the table only before the first data. */
    predicate ShowsSpinner()
      reads this
    {
      loading && pagination.None?
    }

    /** Mounting fetches the page named by the URL, with an empty search. */
    constructor (pageParam: Option<string>)
      ensures Valid()
      ensures controls == LC.Mount(pageParam)
      ensures pagination.None? && loading
    {
      controls := LC.Mount(pageParam);
      pagination := None;
      loading := true;
    }

    /** Typing in the search box. A new term re-creates `fetchUsers`, so the
     *  page effect fetches the current page with it at once, besides arming
     *  the debounce timer. */
    method TypeSearch(term: string)
      requires Valid()
      modifies this
      ensures Valid()
      ensures controls == LC.TypeAsWritten(old(controls), term)
      ensures term != old(controls).searchTerm ==>
        controls.issued == old(controls).issued + [LC.Query(LC.Page(old(controls)), term)]
      ensures pagination == old(pagination)
      ensures loading == LoadingWhenFetching(old(loading), old(pagination).Some?,
        term != old(controls).searchTerm)
    {
      var changed := term != controls.searchTerm;
      controls := LC.TypeAsWritten(controls, term);
      loading := LoadingWhenFetching(loading, pagination.Some?, changed);
    }

    /** The debounce timer fires and page 1 is fetched. */
    method SearchTimerFires()
      requires Valid() && controls.timer.Some?
      modifies this
      ensures Valid()
      ensures controls == LC.FireTimer(old(controls))
      ensures pagination == old(pagination)
      ensures loading == LoadingWhenFetching(old(loading), old(pagination).Some?, true)
    {
      controls := LC.FireTimer(controls);
      loading := LoadingWhenFetching(loading, pagination.Some?, true);
    }

    /** `handlePageChange(link.url)`. */
    method ClickPageLink(url: Option<string>, parsed: ParsedUrl)
      requires Valid()
      modifies this
      ensures Valid()
      ensures controls == LC.ClickLink(old(controls), url, parsed)
      ensures pagination == old(pagination)
      ensures loading == LoadingWhenFetching(old(loading), old(pagination).Some?,
        |controls.issued| > |old(controls.issued)|)
    {
      var before := |controls.issued|;
      controls := LC.ClickLink(controls, url, parsed);
      loading := LoadingWhenFetching(loading, pagination.Some?, |controls.issued| > before);
    }

    /** A fetch settles: a response replaces the pagination (a bare array
     *  becomes one page), a failure keeps it; the spinner stops either way. */
    method SettleFetch(outcome: Remote<ListBody<User>>)
      requires Valid()
      modifies this
      ensures Valid()
      ensures pagination == Received(old(pagination), outcome)
      ensures !loading && controls == old(controls)
    {
      pagination := Received(pagination, outcome);
      loading := false;
    }
  }
}
