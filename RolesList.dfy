/** The role list: all roles are fetched once and filtered in the browser by a
 *  search term; a confirmed delete removes the role locally. */
module RolesList {
  import opened Common

  /** `status: boolean | number | string`. */
  datatype RoleStatus = BoolStatus(b: bool) | NumStatus(n: int) | TextStatus(s: string)

  /** A role; a null description is `None`. */
  datatype Role = Role(
    id: int, name: string, description: Option<string>, status: RoleStatus,
    createdAt: string, updatedAt: string)

  /** `role.status === true || role.status === 1 || role.status === '1'`. */
  predicate IsActive(s: RoleStatus) {
    s == BoolStatus(true) || s == NumStatus(1) || s == TextStatus("1")
  }

  /** Strict equality tells the three encodings of "active" apart from every
   *  other value of the same type: `false`, `0`, `2`, `"true"` are inactive. */
  lemma ActiveEncodings(b: bool, n: int, s: string)
    ensures IsActive(BoolStatus(b)) <==> b
    ensures IsActive(NumStatus(n)) <==> n == 1
    ensures IsActive(TextStatus(s)) <==> s == "1"
  {
  }

  /** The filter's test against the lower-cased term: the lower-cased name
   *  contains it, or the description is present and its lower-cased text
   *  contains it. */
  predicate Matches(r: Role, lowerTerm: string) {
    Contains(Lower(r.name), lowerTerm)
    || (r.description.Some? && r.description.value != ""
        && Contains(Lower(r.description.value), lowerTerm))
  }

  /** `roles.filter(...)` with the test above, in list order. */
  function KeepMatching(roles: seq<Role>, lowerTerm: string): (kept: seq<Role>)
    ensures |kept| <= |roles|
    ensures forall r :: r in kept <==> r in roles && Matches(r, lowerTerm)
    decreases |roles|
  {
    if roles == [] then []
    else (if Matches(roles[0], lowerTerm) then [roles[0]] else []) + KeepMatching(roles[1..], lowerTerm)
  }

  /** The filter effect: an empty term shows every role; otherwise the roles
   *  matching the lower-cased term. */
  function FilterRoles(roles: seq<Role>, term: string): (shown: seq<Role>)
    ensures term == "" ==> shown == roles
    ensures term != "" ==> forall r :: r in shown <==> r in roles && Matches(r, Lower(term))
    ensures |shown| <= |roles|
  {
    if term == "" then roles else KeepMatching(roles, Lower(term))
  }

  /** `xs` is `ys` with some elements dropped and the rest in their order. */
  predicate SubsequenceOf<T(==)>(xs: seq<T>, ys: seq<T>)
    decreases |ys|
  {
    xs == [] || (ys != [] && ((xs[0] == ys[0] && SubsequenceOf(xs[1..], ys[1..])) || SubsequenceOf(xs, ys[1..])))
  }

  lemma {:induction false} KeepMatchingIsSubsequence(roles: seq<Role>, lowerTerm: string)
    ensures SubsequenceOf(KeepMatching(roles, lowerTerm), roles)
    decreases |roles|
  {
    if roles != [] {
      KeepMatchingIsSubsequence(roles[1..], lowerTerm);
      var rest := KeepMatching(roles[1..], lowerTerm);
      if Matches(roles[0], lowerTerm) {
        assert KeepMatching(roles, lowerTerm) == [roles[0]] + rest;
        assert ([roles[0]] + rest)[1..] == rest;
      } else {
        assert KeepMatching(roles, lowerTerm) == rest;
      }
    }
  }

  lemma {:induction false} SubsequenceOfSelf<T>(xs: seq<T>)
    ensures SubsequenceOf(xs, xs)
    decreases |xs|
  {
    if xs != [] {
      SubsequenceOfSelf(xs[1..]);
    }
  }

  /** The filtered list keeps the roles' order: it is a subsequence of them, so
   *  the count badge never exceeds the number of roles. */
  lemma FilterIsOrderedSubsequence(roles: seq<Role>, term: string)
    ensures SubsequenceOf(FilterRoles(roles, term), roles)
  {
    if term == "" {
      SubsequenceOfSelf(roles);
    } else {
      KeepMatchingIsSubsequence(roles, Lower(term));
    }
  }

  /** `roles.filter(r => r.id !== id)`. */
  function RemoveById(roles: seq<Role>, id: int): (rest: seq<Role>)
    ensures |rest| <= |roles|
    ensures forall r :: r in rest <==> r in roles && r.id != id
    decreases |roles|
  {
    if roles == [] then []
    else (if roles[0].id != id then [roles[0]] else []) + RemoveById(roles[1..], id)
  }

  lemma {:induction false} RemoveIsSubsequence(roles: seq<Role>, id: int)
    ensures SubsequenceOf(RemoveById(roles, id), roles)
    decreases |roles|
  {
    if roles != [] {
      RemoveIsSubsequence(roles[1..], id);
      var rest := RemoveById(roles[1..], id);
      if roles[0].id != id {
        assert RemoveById(roles, id) == [roles[0]] + rest;
        assert ([roles[0]] + rest)[1..] == rest;
      } else {
        assert RemoveById(roles, id) == rest;
      }
    }
  }

  /** Deleting then filtering equals filtering then deleting: a delete removes
   *  the role from the filtered view and changes nothing else in it. */
  lemma {:induction false} RemoveCommutesWithKeep(roles: seq<Role>, lowerTerm: string, id: int)
    ensures KeepMatching(RemoveById(roles, id), lowerTerm) == RemoveById(KeepMatching(roles, lowerTerm), id)
    decreases |roles|
  {
    if roles != [] {
      RemoveCommutesWithKeep(roles[1..], lowerTerm, id);
      var head := roles[0];
      var removedTail := RemoveById(roles[1..], id);
      var keptTail := KeepMatching(roles[1..], lowerTerm);
      if head.id != id {
        assert RemoveById(roles, id) == [head] + removedTail;
        assert ([head] + removedTail)[1..] == removedTail;
      } else {
        assert RemoveById(roles, id) == removedTail;
      }
      if Matches(head, lowerTerm) {
        assert KeepMatching(roles, lowerTerm) == [head] + keptTail;
        assert ([head] + keptTail)[1..] == keptTail;
      } else {
        assert KeepMatching(roles, lowerTerm) == keptTail;
      }
    }
  }

  lemma RemoveCommutesWithFilter(roles: seq<Role>, term: string, id: int)
    ensures FilterRoles(RemoveById(roles, id), term) == RemoveById(FilterRoles(roles, term), id)
  {
    if term != "" {
      RemoveCommutesWithKeep(roles, Lower(term), id);
    }
  }

  /** What `getAllRoles` may answer. */
  datatype RolesResponse = RolesArray(items: seq<Role>) | RolesWrapper(data: Option<seq<Role>>)

  /** `Array.isArray(response) ? response : (response.data || [])`. */
  function NormalizeRoles(response: RolesResponse): (roles: seq<Role>)
    ensures response.RolesArray? ==> roles == response.items
    ensures response.RolesWrapper? && response.data.Some? ==> roles == response.data.value
    ensures response.RolesWrapper? && response.data.None? ==> roles == []
  {
    match response
    case RolesArray(items) => items
    case RolesWrapper(data) => if data.Some? then data.value else []
  }

  const LoadFailed: string := "Failed to load roles."
  const DeleteFailed: string := "Failed to delete role."
  const Deleted: string := "Role deleted successfully"

  class RolesListView {
    var roles: seq<Role>
    var filtered: seq<Role>
    var loading: bool
    var searchTerm: string
    var notice: Notice

    /** After every render the filter effect has run. */
    predicate Valid()
      reads this
    {
      filtered == FilterRoles(roles, searchTerm)
    }

    /** The badge: `{filteredRoles.length} ROLES`. */
    function Count(): (n: nat)
      reads this
      requires Valid()
      ensures n <= |roles|
    {
      |filtered|
    }

    constructor ()
      ensures Valid()
      ensures roles == [] && filtered == [] && loading && searchTerm == "" && notice == Quiet
    {
      roles := [];
      filtered := [];
      loading := true;
      searchTerm := "";
      notice := Quiet;
    }

    /** `fetchRoles` with its awaited response; the filter effect then runs on
     *  the new roles. */
    method FetchRoles(outcome: Remote<RolesResponse>)
      requires Valid()
      modifies this
      ensures Valid() && !loading && searchTerm == old(searchTerm)
      ensures outcome.Succeeded? ==> roles == NormalizeRoles(outcome.body) && notice == old(notice)
      ensures outcome.Failed? ==> roles == old(roles) && notice == ErrorToast(LoadFailed)
    {
      if |roles| == 0 {
        loading := true;
      }
      if outcome.Succeeded? {
        var data := NormalizeRoles(outcome.body);
        roles := data;
        filtered := data;
      } else {
        notice := ErrorToast(LoadFailed);
      }
      loading := false;
      filtered := FilterRoles(roles, searchTerm);
    }

    /** Typing in the search box; the filter effect runs. */
    method SetSearchTerm(term: string)
      requires Valid()
      modifies this
      ensures Valid() && searchTerm == term
      ensures roles == old(roles) && loading == old(loading) && notice == old(notice)
    {
      searchTerm := term;
      filtered := FilterRoles(roles, searchTerm);
    }

    /** `handleDelete(id)`: nothing unless confirmed; on success the role is
     *  removed locally, on failure the list is kept and the server's message
     *  (or the fallback) is shown. */
    method HandleDelete(id: int, confirmed: bool, outcome: Remote<()>) returns (requested: Option<int>)
      requires Valid()
      modifies this
      ensures Valid() && searchTerm == old(searchTerm) && loading == old(loading)
      ensures requested == if confirmed then Some(id) else None
      ensures !confirmed ==> roles == old(roles) && notice == old(notice)
      ensures confirmed && outcome.Succeeded? ==>
        roles == RemoveById(old(roles), id) && notice == SuccessToast(Deleted)
      ensures confirmed && outcome.Failed? ==>
        roles == old(roles) && notice == ErrorToast(FailureText(outcome.serverMessage, DeleteFailed))
    {
      if !confirmed {
        return None;
      }
      requested := Some(id);
      if outcome.Succeeded? {
        notice := SuccessToast(Deleted);
        roles := RemoveById(roles, id);
        filtered := FilterRoles(roles, searchTerm);
      } else {
        notice := ErrorToast(FailureText(outcome.serverMessage, DeleteFailed));
      }
    }
  }
}
