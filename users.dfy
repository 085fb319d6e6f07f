/**
 * The `User` table the backend services share: rows in insertion order, each keyed by a
 * unique id that a counter hands out, with `email` unique across rows.
 */
module Users {
  import opened Wrappers

  datatype Role = USER | ADMIN

  type UserId = nat

  /** A stored row. `password` holds the hash, never the plaintext. */
  datatype User = User(
    id: UserId,
    name: string,
    email: string,
    password: string,
    role: Role,
    resetToken: Option<string>,
    resetTokenExpiry: Option<int>,
    createdAt: int,
    updatedAt: int)

  /** The public projection the services `select`: no password and no reset fields. */
  datatype UserView = UserView(id: UserId, name: string, email: string, role: Role, createdAt: int, updatedAt: int)

  function View(u: User): UserView {
    UserView(u.id, u.name, u.email, u.role, u.createdAt, u.updatedAt)
  }

  /** The whole table: its rows and the id the next created row receives. */
  datatype Table = Table(rows: seq<User>, nextId: nat)

  /**
   * The table's integrity: ids are issued below `nextId` and never repeat, emails are unique
   * (the store's unique constraint), and a reset token never exists without its expiry or
   * the other way round.
   */
  ghost predicate ValidTable(t: Table) {
    && (forall i :: 0 <= i < |t.rows| ==> t.rows[i].id < t.nextId)
    && (forall i, j :: 0 <= i < j < |t.rows| ==> t.rows[i].id != t.rows[j].id)
    && (forall i, j :: 0 <= i < j < |t.rows| ==> t.rows[i].email != t.rows[j].email)
    && (forall i :: 0 <= i < |t.rows| ==> (t.rows[i].resetToken.Some? <==> t.rows[i].resetTokenExpiry.Some?))
  }

  /** The index of the first row satisfying `p` (`findFirst` / `findUnique` of the store). */
  function FindFirst(rows: seq<User>, p: User -> bool): (r: Option<nat>)
    ensures r.Some? ==> r.value < |rows| && p(rows[r.value])
    ensures r.Some? ==> forall j :: 0 <= j < r.value ==> !p(rows[j])
    ensures r.None? <==> forall j :: 0 <= j < |rows| ==> !p(rows[j])
  {
    if |rows| == 0 then None
    else if p(rows[0]) then Some(0)
    else
      match FindFirst(rows[1..], p)
      case None => None
      case Some(k) => Some(k + 1)
  }

  /** `findUnique({ where: { email } })`. */
  function FindByEmail(rows: seq<User>, email: string): (r: Option<nat>)
    ensures r.Some? ==> r.value < |rows| && rows[r.value].email == email
    ensures r.Some? ==> forall j :: 0 <= j < r.value ==> rows[j].email != email
    ensures r.None? <==> forall j :: 0 <= j < |rows| ==> rows[j].email != email
  {
    FindFirst(rows, (u: User) => u.email == email)
  }

  /** `findUnique({ where: { id } })`. */
  function FindById(rows: seq<User>, id: UserId): (r: Option<nat>)
    ensures r.Some? ==> r.value < |rows| && rows[r.value].id == id
    ensures r.Some? ==> forall j :: 0 <= j < r.value ==> rows[j].id != id
    ensures r.None? <==> forall j :: 0 <= j < |rows| ==> rows[j].id != id
  {
    FindFirst(rows, (u: User) => u.id == id)
  }

  /** In a valid table a row is found by its own email and by its own id. */
  lemma LookupsFindTheRow(t: Table, i: nat)
    requires ValidTable(t) && i < |t.rows|
    ensures FindByEmail(t.rows, t.rows[i].email) == Some(i)
    ensures FindById(t.rows, t.rows[i].id) == Some(i)
  {
    var e := FindByEmail(t.rows, t.rows[i].email);
    var d := FindById(t.rows, t.rows[i].id);
    assert e.Some? && d.Some?;
    assert !(e.value < i) && !(i < e.value);
    assert !(d.value < i) && !(i < d.value);
  }

  /** The store itself: a table the services update in place. */
  class UserTable {
    var rows: seq<User>
    var nextId: nat

    function Snapshot(): Table
      reads this
    {
      Table(rows, nextId)
    }

    ghost predicate Valid()
      reads this
    {
      ValidTable(Snapshot())
    }

    constructor ()
      ensures Valid()
      ensures Snapshot() == Table([], 0)
    {
      rows := [];
      nextId := 0;
    }
  }
}
