/** The admin's user-management page: the statistics over the user list,
    the search and role filter, and the edit, activate/deactivate and
    delete handlers that update the list in place once the backend agrees. */
module AdminUsers {
  import opened Wrappers
  import opened Strings
  import opened Lists
  import opened Types
  import Api

  datatype UserStats = UserStats(
    total: nat,
    consumers: nat,
    restaurants: nat,
    charities: nat,
    admins: nat,
    active: nat,
    inactive: nat)

  predicate IsConsumer(u: User) { u.role == Consumer }
  predicate IsRestaurant(u: User) { u.role == Restaurant }
  predicate IsCharity(u: User) { u.role == Charity }
  predicate IsAdmin(u: User) { u.role == Admin }
  predicate IsActive(u: User) { u.is_active }
  predicate IsInactive(u: User) { !u.is_active }

  /** Every user has exactly one of the four roles, so the per-role counts
      add up to the length of the list. */
  lemma {:induction false} RoleCountsSum(users: seq<User>)
    ensures Count(users, IsConsumer) + Count(users, IsRestaurant) + Count(users, IsCharity) + Count(users, IsAdmin) == |users|
    decreases |users|
  {
    if users != [] {
      RoleCountsSum(users[1..]);
    }
  }

  /** `calculateStats`: the list's length, one count per role and per
      activity flag. */
  function CalculateStats(users: seq<User>): (r: UserStats)
    ensures r.total == |users|
    ensures r.active + r.inactive == r.total
    ensures r.consumers + r.restaurants + r.charities + r.admins == r.total
    ensures r.consumers == Count(users, IsConsumer) && r.restaurants == Count(users, IsRestaurant)
    ensures r.charities == Count(users, IsCharity) && r.admins == Count(users, IsAdmin)
    ensures r.active == Count(users, IsActive) && r.inactive == Count(users, IsInactive)
  {
    RoleCountsSum(users);
    CountComplement(users, IsActive, IsInactive);
    UserStats(
      |users|,
      Count(users, IsConsumer),
      Count(users, IsRestaurant),
      Count(users, IsCharity),
      Count(users, IsAdmin),
      Count(users, IsActive),
      Count(users, IsInactive))
  }

  /** The list after a successful toggle: the user with that id has its flag
      flipped, every other user is untouched. */
  function ToggleActive(users: seq<User>, id: string): (r: seq<User>)
    ensures |r| == |users|
    ensures forall i :: 0 <= i < |users| ==>
      r[i] == if users[i].id == id then users[i].(is_active := !users[i].is_active) else users[i]
  {
    seq(|users|, i requires 0 <= i < |users| =>
      if users[i].id == id then users[i].(is_active := !users[i].is_active) else users[i])
  }

  /** Toggling the same id twice gives the original list back. */
  lemma ToggleActiveTwice(users: seq<User>, id: string)
    ensures ToggleActive(ToggleActive(users, id), id) == users
  {
    var once := ToggleActive(users, id);
    var twice := ToggleActive(once, id);
    assert forall i :: 0 <= i < |users| ==> twice[i] == users[i];
  }

  /** A toggle changes no role, so the role counts of the statistics stay the same. */
  lemma {:induction false} ToggleActiveKeepsRoles(users: seq<User>, id: string)
    ensures var s, t := CalculateStats(users), CalculateStats(ToggleActive(users, id));
      t.total == s.total && t.consumers == s.consumers && t.restaurants == s.restaurants &&
      t.charities == s.charities && t.admins == s.admins
    decreases |users|
  {
    if users != [] {
      var r := ToggleActive(users, id);
      ToggleActiveKeepsRoles(users[1..], id);
      assert r[1..] == ToggleActive(users[1..], id);
      assert r[0].role == users[0].role;
    }
  }

  /** With unique ids, toggling a listed user moves it between the active and
      inactive counts. */
  lemma ToggleActiveMovesOne(users: seq<User>, k: nat)
    requires k < |users|
    requires UniqueIds(users)
    ensures var s, t := CalculateStats(users), CalculateStats(ToggleActive(users, users[k].id));
      if users[k].is_active then t.active == s.active - 1 else t.active == s.active + 1
  {
    ToggleMovesOneActive(users, k);
  }

  /** The counting step behind `ToggleActiveMovesOne`, by induction on the list. */
  lemma {:induction false} ToggleMovesOneActive(users: seq<User>, k: nat)
    requires k < |users|
    requires UniqueIds(users)
    ensures var before, after := Count(users, IsActive), Count(ToggleActive(users, users[k].id), IsActive);
      if users[k].is_active then after == before - 1 else after == before + 1
    decreases |users|
  {
    var id := users[k].id;
    var r := ToggleActive(users, id);
    var tail := users[1..];
    assert r[1..] == ToggleActive(tail, id);
    UniqueTail(users);
    if k == 0 {
      assert forall i :: 0 <= i < |tail| ==> tail[i].id != id by {
        forall i | 0 <= i < |tail|
          ensures tail[i].id != id
        {
          assert tail[i] == users[i + 1];
        }
      }
      UnmatchedToggleIsIdentity(tail, id);
    } else {
      assert tail[k - 1] == users[k];
      ToggleMovesOneActive(tail, k - 1);
      assert users[0].id != id;
      assert r[0] == users[0];
    }
  }

  /** No two users share an id. */
  predicate UniqueIds(users: seq<User>) {
    forall i, j :: 0 <= i < j < |users| ==> users[i].id != users[j].id
  }

  lemma UniqueTail(users: seq<User>)
    requires UniqueIds(users) && users != []
    ensures UniqueIds(users[1..])
  {
    var tail := users[1..];
    forall i, j | 0 <= i < j < |tail|
      ensures tail[i].id != tail[j].id
    {
      assert tail[i] == users[i + 1] && tail[j] == users[j + 1];
    }
  }

  lemma UnmatchedToggleIsIdentity(users: seq<User>, id: string)
    requires forall i :: 0 <= i < |users| ==> users[i].id != id
    ensures ToggleActive(users, id) == users
  {
  }

  /** Holds of the users a delete of `id` keeps. */
  function IdIsNot(id: string): User -> bool {
    (u: User) => u.id != id
  }

  /** The list after a successful delete: every user whose id differs, each copy kept, in order. */
  function DeleteUser(users: seq<User>, id: string): (r: seq<User>)
    ensures |r| == Count(users, IdIsNot(id))
    ensures forall i :: 0 <= i < |r| ==> r[i].id != id && r[i] in users
    ensures forall i :: 0 <= i < |users| && users[i].id != id ==> users[i] in r
    decreases |users|
  {
    if users == [] then []
    else (if users[0].id != id then [users[0]] else []) + DeleteUser(users[1..], id)
  }

  /** Deleting keeps the remaining users in their original order. */
  lemma {:induction false} DeleteKeepsOrder(users: seq<User>, id: string)
    ensures IsSubsequence(DeleteUser(users, id), users)
    decreases |users|
  {
    if users != [] {
      DeleteKeepsOrder(users[1..], id);
      var r := DeleteUser(users, id);
      if users[0].id != id {
        assert r[1..] == DeleteUser(users[1..], id);
      } else {
        assert r == DeleteUser(users[1..], id);
      }
    }
  }

  /** Delete is offered only for non-admin users. */
  predicate CanDelete(u: User) {
    u.role != Admin
  }

  /** Deleting an id that no admin carries keeps the admin count. */
  lemma {:induction false} DeleteKeepsAdmins(users: seq<User>, id: string)
    requires forall i :: 0 <= i < |users| && users[i].id == id ==> CanDelete(users[i])
    ensures Count(DeleteUser(users, id), IsAdmin) == Count(users, IsAdmin)
    decreases |users|
  {
    if users != [] {
      DeleteKeepsAdmins(users[1..], id);
      var rest := DeleteUser(users[1..], id);
      if users[0].id != id {
        FilterCons(users[0], rest, IsAdmin);
      } else {
        assert DeleteUser(users, id) == rest;
      }
    }
  }

  /** The edit form of the page. */
  datatype EditForm = EditForm(name: string, email: string, phone: string, role: UserRole)

  /** `{...u, ...editForm}`: the form's four fields replace the user's; the
      phone becomes the form's text even when it was missing. */
  function ApplyForm(u: User, form: EditForm): (r: User)
    ensures r.id == u.id && r.is_active == u.is_active && r.created_at == u.created_at
    ensures r.name == form.name && r.email == form.email && r.phone == Some(form.phone) && r.role == form.role
  {
    u.(name := form.name, email := form.email, phone := Some(form.phone), role := form.role)
  }

  /** The list after a successful edit: only the user with that id takes the form. */
  function EditUser(users: seq<User>, id: string, form: EditForm): (r: seq<User>)
    ensures |r| == |users|
    ensures forall i :: 0 <= i < |users| ==> r[i] == if users[i].id == id then ApplyForm(users[i], form) else users[i]
  {
    seq(|users|, i requires 0 <= i < |users| => if users[i].id == id then ApplyForm(users[i], form) else users[i])
  }

  /** An edit never changes the active and inactive counts. */
  lemma {:induction false} EditKeepsActivity(users: seq<User>, id: string, form: EditForm)
    ensures var s, t := CalculateStats(users), CalculateStats(EditUser(users, id, form));
      t.total == s.total && t.active == s.active && t.inactive == s.inactive
    decreases |users|
  {
    if users != [] {
      var r := EditUser(users, id, form);
      EditKeepsActivity(users[1..], id, form);
      assert r[1..] == EditUser(users[1..], id, form);
      assert r[0].is_active == users[0].is_active;
    }
  }

  /** The editing form filled from a user: the phone defaults to "". */
  function FormOf(u: User): (f: EditForm)
    ensures f.name == u.name && f.email == u.email && f.role == u.role
    ensures f.phone == u.phone.GetOr("")
  {
    EditForm(u.name, u.email, u.phone.GetOr(""), u.role)
  }

  /** Saving an unchanged form onto a user that has a phone gives that user back. */
  lemma FormRoundTrip(u: User)
    requires u.phone.Some?
    ensures ApplyForm(u, FormOf(u)) == u
  {
  }

  datatype RoleFilter = AllRoles | OnlyRole(role: UserRole)

  /** The lower-cased query is part of the lower-cased name, email or phone
      (a missing phone reads as ""). */
  predicate MatchesSearch(u: User, query: string) {
    var q := Lower(query);
    Contains(Lower(u.name), q) || Contains(Lower(u.email), q) || Contains(Lower(u.phone.GetOr("")), q)
  }

  predicate KeepUser(role: RoleFilter, query: string, u: User) {
    (role.AllRoles? || u.role == role.role) && MatchesSearch(u, query)
  }

  /** The filter test as the callback handed to `filter`. */
  function UserFilter(role: RoleFilter, query: string): User -> bool {
    u => KeepUser(role, query, u)
  }

  /** The users shown: those matching both the role filter and the search,
      in their original order, each copy kept. */
  function FilteredUsers(users: seq<User>, role: RoleFilter, query: string): (r: seq<User>)
    ensures IsSubsequence(r, users)
    ensures forall i :: 0 <= i < |r| ==> KeepUser(role, query, r[i])
    ensures forall i :: 0 <= i < |users| && KeepUser(role, query, users[i]) ==> users[i] in r
    ensures |r| == Count(users, UserFilter(role, query))
  {
    FilterIsSubsequence(users, UserFilter(role, query));
    Filter(users, UserFilter(role, query))
  }

  /** With no role filter and an empty search every user is shown. */
  lemma FilterNothing(users: seq<User>)
    ensures FilteredUsers(users, AllRoles, "") == users
  {
    forall u: User ensures KeepUser(AllRoles, "", u) {
      ContainsEmpty(Lower(u.name));
    }
    FilterAll(users, UserFilter(AllRoles, ""));
  }

  /** The page's state. `stats` always describes `users`. */
  class AdminUsersPage {
    var users: seq<User>
    var stats: UserStats
    var loading: bool
    var processingId: Option<string>
    var editingUser: Option<User>
    var editForm: EditForm
    var selectedRole: RoleFilter
    var searchQuery: string

    ghost predicate Valid()
      reads this
    {
      stats == CalculateStats(users)
    }

    constructor ()
      ensures Valid()
      ensures users == [] && loading && processingId.None? && editingUser.None?
      ensures editForm == EditForm("", "", "", Consumer)
      ensures selectedRole == AllRoles && searchQuery == ""
    {
      users := [];
      stats := UserStats(0, 0, 0, 0, 0, 0, 0);
      loading := true;
      processingId := None;
      editingUser := None;
      editForm := EditForm("", "", "", Consumer);
      selectedRole := AllRoles;
      searchQuery := "";
    }

    /** Replaces the list and recomputes the statistics from it. */
    method SetUsers(newUsers: seq<User>)
      modifies this`users, this`stats
      ensures users == newUsers && Valid()
    {
      users := newUsers;
      stats := CalculateStats(users);
    }

    /** `fetchUsers`: an error or a missing list leaves users and statistics
        as they were; loading ends false either way. */
    method FetchUsers(response: Api.Response<seq<User>>)
      requires Valid()
      modifies this`users, this`stats, this`loading
      ensures Valid()
      ensures response.error.None? && response.data.Some? ==> users == response.data.value
      ensures response.error.Some? || response.data.None? ==> users == old(users)
      ensures !loading
      ensures processingId == old(processingId) && editingUser == old(editingUser) && editForm == old(editForm)
      ensures selectedRole == old(selectedRole) && searchQuery == old(searchQuery)
    {
      loading := true;
      if response.error.None? && response.data.Some? {
        SetUsers(response.data.value);
      }
      loading := false;
    }

    /** Opens the editor on a user with the form filled from it. */
    method HandleEditClick(u: User)
      modifies this
      ensures editingUser == Some(u) && editForm == FormOf(u)
      ensures users == old(users) && stats == old(stats) && loading == old(loading) && processingId == old(processingId)
      ensures selectedRole == old(selectedRole) && searchQuery == old(searchQuery)
    {
      editingUser := Some(u);
      editForm := FormOf(u);
    }

    /** `handleUpdateUser`: with no user being edited nothing happens;
        otherwise the form is sent for that user's id and, on success, the
        list takes the form and the editor closes; on failure the list and
        the editor stay. The request sent, if any, is returned. */
    method HandleUpdateUser(outcome: Outcome) returns (sent: Option<(string, EditForm)>)
      requires Valid()
      modifies this`users, this`stats, this`processingId, this`editingUser
      ensures Valid()
      ensures old(editingUser).None? ==> sent.None? && users == old(users) && editingUser == old(editingUser) && processingId == old(processingId)
      ensures old(editingUser).Some? ==> sent == Some((old(editingUser).value.id, old(editForm))) && processingId.None?
      ensures old(editingUser).Some? && outcome.Ok? ==>
        users == EditUser(old(users), old(editingUser).value.id, old(editForm)) && editingUser.None?
      ensures old(editingUser).Some? && outcome.Fail? ==> users == old(users) && editingUser == old(editingUser)
      ensures editForm == old(editForm) && loading == old(loading)
      ensures selectedRole == old(selectedRole) && searchQuery == old(searchQuery)
    {
      if editingUser.None? {
        return None;
      }
      var id := editingUser.value.id;
      sent := Some((id, editForm));
      if outcome.Ok? {
        SetUsers(EditUser(users, id, editForm));
        editingUser := None;
      }
      processingId := None;
    }

    /** `handleToggleStatus`: nothing happens unless the admin confirms;
        then the negated flag is sent and, on success, exactly that user's
        flag flips in the list. */
    method HandleToggleStatus(u: User, confirmed: bool, outcome: Outcome) returns (sent: Option<Api.UserUpdate>)
      requires Valid()
      modifies this`users, this`stats, this`processingId
      ensures Valid()
      ensures !confirmed ==> sent.None? && users == old(users) && processingId == old(processingId)
      ensures confirmed ==> sent == Some(Api.ToggleUserStatus(u.id, u.is_active)) && processingId.None?
      ensures confirmed && outcome.Ok? ==> users == ToggleActive(old(users), u.id)
      ensures outcome.Fail? ==> users == old(users)
      ensures editingUser == old(editingUser) && editForm == old(editForm) && loading == old(loading)
      ensures selectedRole == old(selectedRole) && searchQuery == old(searchQuery)
    {
      if !confirmed {
        return None;
      }
      processingId := Some(u.id);
      sent := Some(Api.ToggleUserStatus(u.id, u.is_active));
      if outcome.Ok? {
        SetUsers(ToggleActive(users, u.id));
      }
      processingId := None;
    }

    /** `handleDelete`: nothing happens unless the admin confirms; on
        success no user with that id is left. */
    method HandleDelete(userId: string, confirmed: bool, outcome: Outcome) returns (sent: bool)
      requires Valid()
      modifies this`users, this`stats, this`processingId
      ensures Valid()
      ensures sent == confirmed
      ensures !confirmed ==> users == old(users) && processingId == old(processingId)
      ensures confirmed ==> processingId.None?
      ensures confirmed && outcome.Ok? ==> users == DeleteUser(old(users), userId)
      ensures outcome.Fail? ==> users == old(users)
      ensures editingUser == old(editingUser) && editForm == old(editForm) && loading == old(loading)
      ensures selectedRole == old(selectedRole) && searchQuery == old(searchQuery)
    {
      if !confirmed {
        return false;
      }
      processingId := Some(userId);
      sent := true;
      if outcome.Ok? {
        SetUsers(DeleteUser(users, userId));
      }
      processingId := None;
    }

    /** The list on screen. */
    function Shown(): (r: seq<User>)
      reads this
      ensures IsSubsequence(r, users)
    {
      FilteredUsers(users, selectedRole, searchQuery)
    }
  }
}
