/**
 * `UsersComponent`: the user list as loaded, the search box, and the filtered list the table
 * shows; plus the id guard on edit and delete. The router is recorded as the routes navigated
 * to, and the HTTP client as the deletes issued.
 */
module Users {
  import opened Wrappers
  import opened JsArray
  import Strings

  datatype Role = Admin | Editor | Viewer

  datatype User = User(id: Option<string>, name: string, email: string, role: Role, isActive: bool)

  /** `!u.id`: a missing or empty id. */
  predicate HasId(u: User) {
    u.id.Some? && |u.id.value| > 0
  }

  /** The normalised query: `search.trim().toLowerCase()`. */
  function Query(search: string): string {
    Strings.ToLower(Strings.Trim(search))
  }

  /** The filter predicate: an empty query keeps everyone; otherwise the lower-cased name or email contains it. */
  predicate Keeps(q: string, u: User) {
    |q| == 0 || Strings.Includes(Strings.ToLower(u.name), q) || Strings.Includes(Strings.ToLower(u.email), q)
  }

  function KeepsFor(q: string): User -> bool {
    (u: User) => Keeps(q, u)
  }

  /** `applyFilters`: the users kept for the current search, in their loaded order. */
  function Filtered(users: seq<User>, search: string): (r: seq<User>)
    ensures IsSubsequence(r, users)
    ensures forall u :: u in r <==> u in users && Keeps(Query(search), u)
    ensures |r| == Count(users, KeepsFor(Query(search)))
  {
    FilterIsSubsequence(users, KeepsFor(Query(search)));
    Filter(users, KeepsFor(Query(search)))
  }

  /** An empty or all-whitespace search shows every user. */
  lemma {:induction false} BlankSearchKeepsAll(users: seq<User>, search: string)
    requires forall i :: 0 <= i < |search| ==> Strings.IsJsWhitespace(search[i])
    ensures Filtered(users, search) == users
  {
    Strings.TrimEmpty(search);
    assert Query(search) == [];
    FilterAll(users, KeepsFor(Query(search)));
  }

  /** Filtering the shown list again with the same search shows the same list. */
  lemma {:induction false} FilterAgainIsStable(users: seq<User>, search: string)
    ensures Filtered(Filtered(users, search), search) == Filtered(users, search)
  {
    var shown := Filtered(users, search);
    FilterAll(shown, KeepsFor(Query(search)));
  }

  /** The routes `create` and `edit` navigate to. */
  const CreateRoute := ["/dashboard/users/create"]
  function EditRoute(id: string): seq<string> { ["/dashboard/users/edit", id] }

  class UsersComponent {
    var users: seq<User>
    var filtered: seq<User>
    var search: string
    var loading: bool
    /** The routes navigated to, in order. */
    var navigations: seq<seq<string>>
    /** The ids sent to `deleteUser`, in order. */
    var deletions: seq<string>

    constructor()
      ensures users == [] && filtered == [] && search == "" && !loading
      ensures navigations == [] && deletions == []
    {
      users := [];
      filtered := [];
      search := "";
      loading := false;
      navigations := [];
      deletions := [];
    }

    method ApplyFilters()
      modifies this
      ensures filtered == Filtered(users, search)
      ensures users == old(users) && search == old(search) && loading == old(loading)
      ensures navigations == old(navigations) && deletions == old(deletions)
    {
      var q := Query(search);
      filtered := Filter(users, KeepsFor(q));
    }

    /** `load` as the request goes out. */
    method Load()
      modifies this
      ensures loading
      ensures users == old(users) && filtered == old(filtered) && search == old(search)
      ensures navigations == old(navigations) && deletions == old(deletions)
    {
      loading := true;
    }

    /** The success callback of `load`: a null body counts as no users. */
    method LoadSucceeded(data: Option<seq<User>>)
      modifies this
      ensures users == (if data.Some? then data.value else [])
      ensures filtered == Filtered(users, search) && !loading
      ensures search == old(search) && navigations == old(navigations) && deletions == old(deletions)
    {
      users := if data.Some? then data.value else [];
      ApplyFilters();
      loading := false;
    }

    /** The error callback of `load`: the lists stay as they were. */
    method LoadFailed()
      modifies this
      ensures !loading
      ensures users == old(users) && filtered == old(filtered) && search == old(search)
      ensures navigations == old(navigations) && deletions == old(deletions)
    {
      loading := false;
    }

    method Create()
      modifies this
      ensures navigations == old(navigations) + [CreateRoute]
      ensures users == old(users) && filtered == old(filtered) && search == old(search)
      ensures loading == old(loading) && deletions == old(deletions)
    {
      navigations := navigations + [CreateRoute];
    }

    /** `edit`: nothing for a user without an id; otherwise go to its edit page. */
    method Edit(u: User)
      modifies this
      ensures !HasId(u) ==> navigations == old(navigations)
      ensures HasId(u) ==> navigations == old(navigations) + [EditRoute(u.id.value)]
      ensures users == old(users) && filtered == old(filtered) && search == old(search)
      ensures loading == old(loading) && deletions == old(deletions)
    {
      if !HasId(u) {
        return;
      }
      navigations := navigations + [EditRoute(u.id.value)];
    }

    /** `remove`: nothing for a user without an id; otherwise delete it once the user confirms. */
    method Remove(u: User, confirmed: bool)
      modifies this
      ensures !HasId(u) || !confirmed ==> deletions == old(deletions)
      ensures HasId(u) && confirmed ==> deletions == old(deletions) + [u.id.value]
      ensures users == old(users) && filtered == old(filtered) && search == old(search)
      ensures loading == old(loading) && navigations == old(navigations)
    {
      if !HasId(u) {
        return;
      }
      if confirmed {
        deletions := deletions + [u.id.value];
      }
    }
  }
}
