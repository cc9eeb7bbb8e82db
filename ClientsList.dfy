/** The client list: a paginated table with a debounced search box, an error
 *  screen for a failed first load, and a two-letter badge for clients without
 *  a logo. */
module ClientsList {
  import opened Common
  import opened Pagination
  import LC = ListControls
  import RolesList

  datatype Client = Client(id: int, name: string, logoPath: Option<string>, status: string)

  const LoadError: string := "Failed to load client list."

  /** `(client.name || 'NA').substring(0, 2).toUpperCase()`. */
  function Initials(name: string): (r: string)
    ensures 1 <= |r| <= 2
    ensures name == "" ==> r == "NA"
    ensures name != "" ==> (|r| == (if |name| < 2 then |name| else 2)
                            && forall i :: 0 <= i < |r| ==> r[i] == UpperChar(name[i]))
  {
    var base := if name == "" then "NA" else name;
    Upper(base[..if |base| < 2 then |base| else 2])
  }

  /** Support for `InitialsIdempotent`: upper-casing a character twice is
   *  upper-casing it once. */
  lemma UpperCharIdempotent(c: char)
    ensures UpperChar(UpperChar(c)) == UpperChar(c)
  {
  }

  /** The badge of a badge is itself: it is already upper case and at most two
   *  characters long. */
  lemma InitialsIdempotent(name: string)
    ensures Initials(Initials(name)) == Initials(name)
  {
    var r := Initials(name);
    var rr := Initials(r);
    assert |rr| == |r|;
    forall i | 0 <= i < |r| ensures rr[i] == r[i] {
      if name == "" {
        assert r == "NA";
      } else {
        UpperCharIdempotent(name[i]);
      }
    }
  }

  /** `client.status === "1"`. */
  predicate IsActive(c: Client) {
    c.status == "1"
  }

  /** The client badge agrees with the role badge on every status sent as
   *  text, while the numeric and boolean encodings the role list also accepts
   *  never reach the client list, whose status is always text. */
  lemma BadgeAgreesWithRoles(c: Client)
    ensures IsActive(c) <==> RolesList.IsActive(RolesList.TextStatus(c.status))
  {
  }

  class ClientsListView {
    var controls: LC.Controls
    var pagination: Option<Envelope<Client>>
    var loading: bool
    var error: string

    predicate Valid()
      reads this
    {
      LC.Valid(controls)
    }

    constructor (pageParam: Option<string>)
      ensures Valid()
      ensures controls == LC.Mount(pageParam)
      ensures pagination.None? && loading && error == ""
    {
      controls := LC.Mount(pageParam);
      pagination := None;
      loading := true;
      error := "";
    }

    /** Typing in the search box. A new term re-creates `fetchClients`, so the
     *  page effect fetches the current page with it at once, besides arming
     *  the debounce timer. */
    method TypeSearch(term: string)
      requires Valid()
      modifies this
      ensures Valid()
      ensures controls == LC.TypeAsWritten(old(controls), term)
      ensures term != old(controls).searchTerm ==>
        controls.issued == old(controls).issued + [LC.Query(LC.Page(old(controls)), term)]
      ensures pagination == old(pagination) && error == old(error)
      ensures loading == LoadingWhenFetching(old(loading), old(pagination).Some?,
        term != old(controls).searchTerm)
    {
      var changed := term != controls.searchTerm;
      controls := LC.TypeAsWritten(controls, term);
      loading := LoadingWhenFetching(loading, pagination.Some?, changed);
    }

    method SearchTimerFires()
      requires Valid() && controls.timer.Some?
      modifies this
      ensures Valid()
      ensures controls == LC.FireTimer(old(controls))
      ensures pagination == old(pagination) && error == old(error)
      ensures loading == LoadingWhenFetching(old(loading), old(pagination).Some?, true)
    {
      controls := LC.FireTimer(controls);
      loading := LoadingWhenFetching(loading, pagination.Some?, true);
    }

    method ClickPageLink(url: Option<string>, parsed: ParsedUrl)
      requires Valid()
      modifies this
      ensures Valid()
      ensures controls == LC.ClickLink(old(controls), url, parsed)
      ensures pagination == old(pagination) && error == old(error)
      ensures loading == LoadingWhenFetching(old(loading), old(pagination).Some?,
        |controls.issued| > |old(controls.issued)|)
    {
      var before := |controls.issued|;
      controls := LC.ClickLink(controls, url, parsed);
      loading := LoadingWhenFetching(loading, pagination.Some?, |controls.issued| > before);
    }

    /** A fetch settles. A failure sets the error only when no list was loaded
     *  before and keeps the earlier list. A success stores a new pagination,
     *  which re-creates `fetchClients`: both effects run again, so a pending
     *  search timer is cancelled and the same page is requested once more.
     *  The new callback sees a loaded list, so the spinner stays down. */
    method SettleFetch(outcome: Remote<ListBody<Client>>)
      requires Valid()
      modifies this
      ensures Valid()
      ensures pagination == Received(old(pagination), outcome)
      ensures error == ErrorAfterFetch(old(error), old(pagination).Some?, outcome.Failed?, LoadError)
      ensures controls == LC.StepClientsAsWritten(old(controls), LC.ResponseArrived(outcome.Succeeded?))
      ensures outcome.Failed? ==> controls == old(controls)
      ensures outcome.Succeeded? ==>
        controls.timer.None?
        && controls.issued == old(controls).issued + [LC.Query(LC.Page(old(controls)), old(controls).searchTerm)]
      ensures !loading
    {
      error := ErrorAfterFetch(error, pagination.Some?, outcome.Failed?, LoadError);
      pagination := Received(pagination, outcome);
      loading := false;
      controls := LC.StepClientsAsWritten(controls, LC.ResponseArrived(outcome.Succeeded?));
    }
  }
}
