/** The employee list: a paginated table whose page is local state, searched
 *  on Enter, with a confirmed delete that refetches a sensible page. */
module EmployeeList {
  import opened Common
  import opened Pagination
  import Services

  datatype Employee = Employee(
    id: int, name: string, designation: string, photo: string, status: string,
    positionNumber: string, createdAt: Option<string>, updatedAt: Option<string>)

  const LoadError: string := "Failed to load employee list."
  const DeleteFailed: string := "Failed to delete employee. Please try again."
  const Deleted: string := "Employee deleted successfully!"

  /** The page to refetch after a delete: one page back when the deleted row was
   *  the only row shown and the page is past the first; the same page otherwise. */
  function PageAfterDelete(rowsShown: nat, currentPage: int): (page: int)
    ensures page == currentPage - 1 <==> rowsShown == 1 && currentPage > 1
    ensures page == currentPage <==> !(rowsShown == 1 && currentPage > 1)
    ensures currentPage >= 1 ==> page >= 1
  {
    if rowsShown == 1 && currentPage > 1 then currentPage - 1 else currentPage
  }

  /** The request `getAllEmployees(page, search)` sends. */
  predicate EmployeeQuery(request: Services.GetRequest, page: int, search: string) {
    && request.path == Services.EmployeesPath
    && |request.query| >= 1 && request.query[0] == Pair("page", DecimalString(page))
    && Lookup(request.query, "search") == (if search != "" then Some(search) else None)
  }

  class EmployeeListView {
    var pagination: Option<Envelope<Employee>>
    var loading: bool
    var error: string
    var searchTerm: string
    var currentPage: int
    var issued: seq<Services.GetRequest>
    var notice: Notice

    /** The error screen replaces the table once a first load has failed. */
    predicate ShowsError()
      reads this
    {
      !(loading && pagination.None?) && error != ""
    }

    constructor ()
      ensures pagination.None? && loading && error == "" && searchTerm == ""
      ensures currentPage == 1 && issued == [] && notice == Quiet
    {
      pagination := None;
      loading := true;
      error := "";
      searchTerm := "";
      currentPage := 1;
      issued := [];
      notice := Quiet;
    }

    /** The start of `fetchEmployees(page)`: the request goes out, and the
     *  spinner flag is raised only while nothing has been loaded. */
    method FetchEmployees(page: int)
      modifies this
      ensures |issued| == |old(issued)| + 1 && issued[..|old(issued)|] == old(issued)
      ensures EmployeeQuery(issued[|issued| - 1], page, searchTerm)
      ensures loading == LoadingWhenFetching(old(loading), old(pagination).Some?, true)
      ensures pagination == old(pagination) && error == old(error) && searchTerm == old(searchTerm)
      ensures currentPage == old(currentPage) && notice == old(notice)
    {
      loading := LoadingWhenFetching(loading, pagination.Some?, true);
      var request := Services.GetAllEmployees(page, searchTerm);
      issued := issued + [request];
    }

    /** The mount effect fetches page 1. */
    method Mount()
      modifies this
      ensures |issued| == |old(issued)| + 1 && issued[..|old(issued)|] == old(issued)
      ensures EmployeeQuery(issued[|issued| - 1], 1, searchTerm)
      ensures loading == LoadingWhenFetching(old(loading), old(pagination).Some?, true)
      ensures pagination == old(pagination) && error == old(error) && searchTerm == old(searchTerm)
      ensures currentPage == old(currentPage) && notice == old(notice)
    {
      FetchEmployees(1);
    }

    /** A fetch settles: a response becomes the pagination and its
     *  `current_page` the current page; a failure sets the error only when
     *  nothing was loaded before. The spinner stops either way. */
    method SettleFetch(outcome: Remote<Envelope<Employee>>)
      modifies this
      ensures !loading && issued == old(issued) && searchTerm == old(searchTerm) && notice == old(notice)
      ensures outcome.Succeeded? ==>
        pagination == Some(outcome.body) && currentPage == outcome.body.currentPage && error == old(error)
      ensures outcome.Failed? ==>
        pagination == old(pagination) && currentPage == old(currentPage)
        && error == ErrorAfterFetch(old(error), old(pagination).Some?, true, LoadError)
    {
      if outcome.Succeeded? {
        pagination := Some(outcome.body);
        currentPage := outcome.body.currentPage;
      } else {
        error := ErrorAfterFetch(error, pagination.Some?, true, LoadError);
      }
      loading := false;
    }

    /** `handleDelete(id)`: a declined confirm changes nothing; a successful
     *  delete refetches the page chosen by `PageAfterDelete`; a failed one only
     *  says so. */
    method HandleDelete(id: int, confirmed: bool, outcome: Remote<()>) returns (requested: Option<int>)
      modifies this
      ensures requested == if confirmed then Some(id) else None
      ensures !confirmed ==> issued == old(issued) && notice == old(notice) && loading == old(loading)
      ensures confirmed && outcome.Failed? ==>
        issued == old(issued) && notice == ErrorToast(DeleteFailed) && loading == old(loading)
      ensures confirmed && outcome.Succeeded? ==>
        notice == SuccessToast(Deleted)
        && |issued| == |old(issued)| + 1 && issued[..|old(issued)|] == old(issued)
        && EmployeeQuery(issued[|issued| - 1], PageAfterDelete(|Rows(old(pagination))|, old(currentPage)), searchTerm)
        && loading == LoadingWhenFetching(old(loading), old(pagination).Some?, true)
      ensures pagination == old(pagination) && currentPage == old(currentPage) && searchTerm == old(searchTerm)
      ensures error == old(error)
    {
      if !confirmed {
        return None;
      }
      requested := Some(id);
      if outcome.Succeeded? {
        notice := SuccessToast(Deleted);
        FetchEmployees(PageAfterDelete(|Rows(pagination)|, currentPage));
      } else {
        notice := ErrorToast(DeleteFailed);
      }
    }

    /** Typing in the search box only records the term. */
    method SetSearchTerm(term: string)
      modifies this
      ensures searchTerm == term && issued == old(issued) && pagination == old(pagination)
      ensures loading == old(loading) && error == old(error) && currentPage == old(currentPage)
      ensures notice == old(notice)
    {
      searchTerm := term;
    }

    /** `handleSearch`: only the Enter key searches, always from page 1. */
    method HandleSearchKey(key: string)
      modifies this
      ensures key != "Enter" ==> issued == old(issued) && loading == old(loading)
      ensures key == "Enter" ==>
        |issued| == |old(issued)| + 1 && issued[..|old(issued)|] == old(issued)
        && EmployeeQuery(issued[|issued| - 1], 1, searchTerm)
        && loading == LoadingWhenFetching(old(loading), old(pagination).Some?, true)
      ensures searchTerm == old(searchTerm) && pagination == old(pagination) && currentPage == old(currentPage)
      ensures error == old(error) && notice == old(notice)
    {
      if key == "Enter" {
        FetchEmployees(1);
      }
    }

    /** `handlePageChange(url)`: fetches `parseInt` of the link's page
     *  parameter, here the input `pageNumber`, when the link yields one. */
    method ClickPageLink(url: Option<string>, parsed: ParsedUrl, pageNumber: int)
      modifies this
      ensures PageFromLink(url, parsed).None? ==> issued == old(issued) && loading == old(loading)
      ensures PageFromLink(url, parsed).Some? ==>
        |issued| == |old(issued)| + 1 && issued[..|old(issued)|] == old(issued)
        && EmployeeQuery(issued[|issued| - 1], pageNumber, searchTerm)
        && loading == LoadingWhenFetching(old(loading), old(pagination).Some?, true)
      ensures searchTerm == old(searchTerm) && pagination == old(pagination) && currentPage == old(currentPage)
      ensures error == old(error) && notice == old(notice)
    {
      if PageFromLink(url, parsed).Some? {
        FetchEmployees(pageNumber);
      }
    }
  }
}
