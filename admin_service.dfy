/**
 * `AdminService` (backend/src/services/adminService.ts): the newest-first user listing and
 * the role update. The listing is a projection followed by a sort on `createdAt`, written
 * here as an insertion sort; the source leaves the order of equal timestamps to the store,
 * and the contracts say nothing about it either.
 */
module Admin {
  import opened Wrappers
  import opened ApiErrors
  import opened Users
  import opened Auth

  /** Ordered by `createdAt`, newest first. */
  ghost predicate NewestFirst(s: seq<UserView>) {
    forall i, j :: 0 <= i < j < |s| ==> s[i].createdAt >= s[j].createdAt
  }

  /** The public projection of every row, in table order. */
  function Views(rows: seq<User>): (r: seq<UserView>)
    ensures |r| == |rows|
    ensures forall i :: 0 <= i < |rows| ==> r[i] == View(rows[i])
  {
    if rows == [] then [] else [View(rows[0])] + Views(rows[1..])
  }

  /** Places `v` in a newest-first list, keeping it newest first. */
  function InsertNewestFirst(v: UserView, s: seq<UserView>): (r: seq<UserView>)
    requires NewestFirst(s)
    ensures NewestFirst(r)
    ensures multiset(r) == multiset(s) + multiset{v}
    ensures r[0] == v || (|s| > 0 && r[0] == s[0])
  {
    if s == [] || v.createdAt >= s[0].createdAt then
      var r := [v] + s;
      assert forall j :: 0 < j < |r| ==> r[j] == s[j - 1];
      r
    else
      var rest := InsertNewestFirst(v, s[1..]);
      var r := [s[0]] + rest;
      assert s == [s[0]] + s[1..];
      assert multiset(r) == multiset{s[0]} + multiset(rest);
      assert forall j :: 0 < j < |r| ==> r[j] == rest[j - 1];
      assert s[0].createdAt >= rest[0].createdAt;
      r
  }

  /** Orders a list newest first without losing or adding any entry. */
  function SortNewestFirst(s: seq<UserView>): (r: seq<UserView>)
    ensures NewestFirst(r)
    ensures multiset(r) == multiset(s)
  {
    if s == [] then []
    else
      assert s == [s[0]] + s[1..];
      InsertNewestFirst(s[0], SortNewestFirst(s[1..]))
  }

  /** `AdminService.getAllUsers`. */
  function GetAllUsers(t: Table): (r: seq<UserView>)
    ensures NewestFirst(r)
    ensures multiset(r) == multiset(Views(t.rows))
    ensures |r| == |t.rows|
    ensures forall i :: 0 <= i < |t.rows| ==> View(t.rows[i]) in r
    ensures forall v :: v in r ==> exists i :: 0 <= i < |t.rows| && v == View(t.rows[i])
  {
    var views := Views(t.rows);
    var r := SortNewestFirst(views);
    assert |r| == |multiset(r)| == |multiset(views)| == |views|;
    forall i | 0 <= i < |t.rows| ensures View(t.rows[i]) in r {
      assert views[i] in multiset(views);
    }
    forall v | v in r ensures exists i :: 0 <= i < |t.rows| && v == View(t.rows[i]) {
      assert v in multiset(views);
      var i :| 0 <= i < |views| && views[i] == v;
    }
    r
  }

  /** The row after a role change: only the role and the update time differ. */
  function WithRole(u: User, role: Role, now: int): User {
    u.(role := role, updatedAt := now)
  }

  /** `AdminService.updateUserRole`. */
  function UpdateUserRoleStep(t: Table, userId: UserId, role: Role, now: int): (s: Step<UserView>)
    ensures s.result.Err? <==> forall i :: 0 <= i < |t.rows| ==> t.rows[i].id != userId
    ensures s.result.Err? ==> s.table == t && s.result.error == UserNotFound
    ensures s.result.Ok? ==>
      exists i :: 0 <= i < |t.rows| && t.rows[i].id == userId
        && s.table.rows == t.rows[i := WithRole(t.rows[i], role, now)]
        && s.result.value == View(s.table.rows[i])
    ensures s.result.Ok? ==> s.result.value.role == role && s.result.value.id == userId
    ensures s.table.nextId == t.nextId && |s.table.rows| == |t.rows|
    ensures forall i :: 0 <= i < |t.rows| ==>
      s.table.rows[i] == t.rows[i].(role := s.table.rows[i].role, updatedAt := s.table.rows[i].updatedAt)
    ensures ValidTable(t) ==> ValidTable(s.table)
  {
    match FindById(t.rows, userId)
    case None => Step(t, Err(UserNotFound))
    case Some(i) =>
      var rows := t.rows[i := WithRole(t.rows[i], role, now)];
      Step(Table(rows, t.nextId), Ok(View(rows[i])))
  }

  /** After a role change the current-user lookup reports the new role. */
  lemma RoleChangeIsVisible(t: Table, userId: UserId, role: Role, now: int)
    requires ValidTable(t)
    requires UpdateUserRoleStep(t, userId, role, now).result.Ok?
    ensures
      var after := UpdateUserRoleStep(t, userId, role, now).table;
      GetCurrentUser(after, userId).Ok? && GetCurrentUser(after, userId).value.role == role
  {
    var s := UpdateUserRoleStep(t, userId, role, now);
    var i :| 0 <= i < |t.rows| && t.rows[i].id == userId && s.table.rows == t.rows[i := WithRole(t.rows[i], role, now)];
    LookupsFindTheRow(s.table, i);
  }

  /** A role change leaves every login outcome's success unchanged: credentials are untouched. */
  lemma RoleChangeKeepsCredentials(t: Table, userId: UserId, role: Role, now: int, email: string, password: string, crypto: Crypto)
    requires ValidTable(t)
    ensures
      var after := UpdateUserRoleStep(t, userId, role, now).table;
      Login(after, email, password, crypto).Ok? == Login(t, email, password, crypto).Ok?
  {
    var after := UpdateUserRoleStep(t, userId, role, now).table;
    var k := FindByEmail(t.rows, email);
    if k.Some? {
      assert after.rows[k.value].email == email;
      assert after.rows[k.value].password == t.rows[k.value].password;
    } else {
      assert forall i :: 0 <= i < |after.rows| ==> after.rows[i].email == t.rows[i].email;
    }
  }

  /** The service class: the role update changes the shared table in place. */
  class AdminService {

    static method UpdateUserRole(table: UserTable, userId: UserId, role: Role, now: int)
      returns (r: Result<UserView, ApiError>)
      requires table.Valid()
      modifies table
      ensures table.Valid()
      ensures
        var s := UpdateUserRoleStep(old(table.Snapshot()), userId, role, now);
        table.Snapshot() == s.table && r == s.result
    {
      var found := FindById(table.rows, userId);
      if found.None? {
        return Err(UserNotFound);
      }
      var i := found.value;
      table.rows := table.rows[i := WithRole(table.rows[i], role, now)];
      r := Ok(View(table.rows[i]));
    }
  }
}
