/**
 * `AuthService` (backend/src/services/authService.ts): signup, login, current user,
 * forgot-password and reset-password over the user table.
 *
 * Each state-changing operation is specified by a `...Step` function from the old table to
 * the new table and the result, and carried out by a static method of class `AuthService`
 * that updates a `UserTable` in place. The password hash, its comparison and token signing
 * are foreign (bcrypt, jsonwebtoken) and arrive as the fields of a `Crypto` value; the clock
 * (`now`) and the random reset token are parameters.
 */
module Auth {
  import opened Wrappers
  import opened ApiErrors
  import opened Users

  /** A reset token lives for one hour, in milliseconds. */
  const ResetTokenLifetime: int := 3600000

  /** The signed claims of a session token. */
  datatype Payload = Payload(userId: UserId, email: string, role: Role)

  function PayloadOf(u: User): Payload {
    Payload(u.id, u.email, u.role)
  }

  /** The foreign primitives: `hashPassword`, `comparePassword`, `generateToken`. */
  datatype Crypto = Crypto(hash: string -> string, compare: (string, string) -> bool, sign: Payload -> string)

  datatype SignupResponse = SignupResponse(user: UserView, token: string)

  /** A stored row minus its `password` field; the reset fields remain. */
  datatype LoginUser = LoginUser(
    id: UserId,
    name: string,
    email: string,
    role: Role,
    resetToken: Option<string>,
    resetTokenExpiry: Option<int>,
    createdAt: int,
    updatedAt: int)

  function WithoutPassword(u: User): LoginUser {
    LoginUser(u.id, u.name, u.email, u.role, u.resetToken, u.resetTokenExpiry, u.createdAt, u.updatedAt)
  }

  datatype LoginResponse = LoginResponse(user: LoginUser, token: string)

  /** The table after an operation, and what the operation returned or threw. */
  datatype Step<T> = Step(table: Table, result: Result<T, ApiError>)

  const UserExists := ApiError(409, "User already exists with this email", None)
  const InvalidCredentials := ApiError(401, "Invalid email or password", None)
  const UserNotFound := ApiError(404, "User not found", None)
  const InvalidResetToken := ApiError(400, "Invalid or expired reset token", None)

  /** The row `signup` creates: default role, no reset pending, both timestamps `now`. */
  function NewUser(id: UserId, name: string, email: string, passwordHash: string, now: int): User {
    User(id, name, email, passwordHash, USER, None, None, now, now)
  }

  /** `AuthService.signup`. */
  function SignupStep(t: Table, name: string, email: string, password: string, now: int, crypto: Crypto)
    : (s: Step<SignupResponse>)
    ensures s.result.Err? <==> exists i :: 0 <= i < |t.rows| && t.rows[i].email == email
    ensures s.result.Err? ==> s.table == t && s.result.error == UserExists
    ensures s.result.Ok? ==>
      && s.table.rows == t.rows + [NewUser(t.nextId, name, email, crypto.hash(password), now)]
      && s.table.nextId == t.nextId + 1
      && s.result.value.user == View(s.table.rows[|t.rows|])
      && s.result.value.token == crypto.sign(Payload(t.nextId, email, USER))
    ensures ValidTable(t) ==> ValidTable(s.table)
  {
    if FindByEmail(t.rows, email).Some? then
      Step(t, Err(UserExists))
    else
      var u := NewUser(t.nextId, name, email, crypto.hash(password), now);
      Step(Table(t.rows + [u], t.nextId + 1), Ok(SignupResponse(View(u), crypto.sign(PayloadOf(u)))))
  }

  /** `AuthService.login`: the same error for an unknown email and for a wrong password. */
  function Login(t: Table, email: string, password: string, crypto: Crypto): (r: Result<LoginResponse, ApiError>)
    ensures r.Err? ==> r.error == InvalidCredentials
    ensures r.Ok? ==>
      exists i :: 0 <= i < |t.rows| && t.rows[i].email == email && crypto.compare(password, t.rows[i].password)
        && r.value == LoginResponse(WithoutPassword(t.rows[i]), crypto.sign(PayloadOf(t.rows[i])))
    ensures (forall i :: 0 <= i < |t.rows| ==> t.rows[i].email != email) ==> r.Err?
    ensures ValidTable(t) ==>
      forall i :: 0 <= i < |t.rows| && t.rows[i].email == email ==>
        (r.Ok? <==> crypto.compare(password, t.rows[i].password))
  {
    match FindByEmail(t.rows, email)
    case None => Err(InvalidCredentials)
    case Some(i) =>
      var u := t.rows[i];
      if !crypto.compare(password, u.password) then
        Err(InvalidCredentials)
      else
        Ok(LoginResponse(WithoutPassword(u), crypto.sign(PayloadOf(u))))
  }

  /** `AuthService.getCurrentUser`. */
  function GetCurrentUser(t: Table, userId: UserId): (r: Result<UserView, ApiError>)
    ensures r.Err? <==> forall i :: 0 <= i < |t.rows| ==> t.rows[i].id != userId
    ensures r.Err? ==> r.error == UserNotFound
    ensures r.Ok? ==> exists i :: 0 <= i < |t.rows| && t.rows[i].id == userId && r.value == View(t.rows[i])
  {
    match FindById(t.rows, userId)
    case None => Err(UserNotFound)
    case Some(i) => Ok(View(t.rows[i]))
  }

  /** The row with a fresh reset token set: token and expiry together, and the update time. */
  function WithResetToken(u: User, token: string, now: int): User {
    u.(resetToken := Some(token), resetTokenExpiry := Some(now + ResetTokenLifetime), updatedAt := now)
  }

  /** `AuthService.forgotPassword`: nothing happens for an unknown email. */
  function ForgotPasswordStep(t: Table, email: string, token: string, now: int): (r: Table)
    ensures (forall i :: 0 <= i < |t.rows| ==> t.rows[i].email != email) ==> r == t
    ensures r.nextId == t.nextId && |r.rows| == |t.rows|
    ensures forall i :: 0 <= i < |t.rows| && t.rows[i].email != email ==> r.rows[i] == t.rows[i]
    ensures ValidTable(t) ==>
      forall i :: 0 <= i < |t.rows| && t.rows[i].email == email ==> r.rows[i] == WithResetToken(t.rows[i], token, now)
    ensures ValidTable(t) ==> ValidTable(r)
  {
    match FindByEmail(t.rows, email)
    case None => t
    case Some(i) =>
      var r := Table(t.rows[i := WithResetToken(t.rows[i], token, now)], t.nextId);
      assert ValidTable(t) ==> forall j :: 0 <= j < |t.rows| && t.rows[j].email == email ==> j == i by {
        if ValidTable(t) {
          forall j | 0 <= j < |t.rows| && t.rows[j].email == email ensures j == i {
            LookupsFindTheRow(t, j);
          }
        }
      }
      r
  }

  /** The row `resetPassword` looks for: it holds `token` and its expiry is strictly later than `now`. */
  predicate HoldsLiveToken(u: User, token: string, now: int) {
    u.resetToken == Some(token) && u.resetTokenExpiry.Some? && u.resetTokenExpiry.value > now
  }

  /** The row after a password reset: the new hash stored, both reset fields cleared. */
  function WithNewPassword(u: User, passwordHash: string, now: int): User {
    u.(password := passwordHash, resetToken := None, resetTokenExpiry := None, updatedAt := now)
  }

  /** `AuthService.resetPassword`: acts on the first row holding a live copy of the token. */
  function ResetPasswordStep(t: Table, token: string, newPassword: string, now: int, crypto: Crypto)
    : (s: Step<()>)
    ensures s.result.Err? <==> forall i :: 0 <= i < |t.rows| ==> !HoldsLiveToken(t.rows[i], token, now)
    ensures s.result.Err? ==> s.table == t && s.result.error == InvalidResetToken
    ensures s.result.Ok? ==>
      exists i :: 0 <= i < |t.rows| && HoldsLiveToken(t.rows[i], token, now)
        && s.table.rows == t.rows[i := WithNewPassword(t.rows[i], crypto.hash(newPassword), now)]
    ensures s.table.nextId == t.nextId && |s.table.rows| == |t.rows|
    ensures ValidTable(t) ==> ValidTable(s.table)
  {
    match FindFirst(t.rows, (u: User) => HoldsLiveToken(u, token, now))
    case None => Step(t, Err(InvalidResetToken))
    case Some(i) =>
      Step(Table(t.rows[i := WithNewPassword(t.rows[i], crypto.hash(newPassword), now)], t.nextId), Ok(()))
  }

  /** No two rows hold `token` (what 32 random bytes make overwhelmingly likely). */
  ghost predicate TokenHeldAtMostOnce(t: Table, token: string) {
    forall i, j :: 0 <= i < j < |t.rows| && t.rows[i].resetToken == Some(token) ==> t.rows[j].resetToken != Some(token)
  }

  /** After a signup, logging in with the same credentials succeeds and yields the same user. */
  lemma SignupThenLogin(t: Table, name: string, email: string, password: string, now: int, crypto: Crypto)
    requires ValidTable(t)
    requires crypto.compare(password, crypto.hash(password))
    requires SignupStep(t, name, email, password, now, crypto).result.Ok?
    ensures
      var s := SignupStep(t, name, email, password, now, crypto);
      var l := Login(s.table, email, password, crypto);
      l.Ok? && l.value.user.id == s.result.value.user.id && l.value.user.role == USER
  {
    var s := SignupStep(t, name, email, password, now, crypto);
    var n := |t.rows|;
    assert s.table.rows[n].email == email;
    LookupsFindTheRow(s.table, n);
  }

  /** A reset token works once: a second reset with it fails, whatever the time. */
  lemma ResetTokenSingleUse(t: Table, token: string, p1: string, p2: string, now1: int, now2: int, crypto: Crypto)
    requires TokenHeldAtMostOnce(t, token)
    requires ResetPasswordStep(t, token, p1, now1, crypto).result.Ok?
    ensures
      var after := ResetPasswordStep(t, token, p1, now1, crypto).table;
      ResetPasswordStep(after, token, p2, now2, crypto).result == Err(InvalidResetToken)
  {
    var after := ResetPasswordStep(t, token, p1, now1, crypto).table;
    var i :| 0 <= i < |t.rows| && HoldsLiveToken(t.rows[i], token, now1)
      && after.rows == t.rows[i := WithNewPassword(t.rows[i], crypto.hash(p1), now1)];
    forall j | 0 <= j < |after.rows| ensures !HoldsLiveToken(after.rows[j], token, now2) {
      if j != i {
        assert after.rows[j].resetToken != Some(token);
      }
    }
  }

  /**
   * The password-reset round: a token issued to the owner of `email` resets that owner's
   * password before it expires; afterwards the old password no longer logs in, the new one does.
   */
  lemma ForgotThenReset(
    t: Table, email: string, token: string, issuedAt: int, usedAt: int,
    oldPassword: string, newPassword: string, crypto: Crypto, k: nat)
    requires ValidTable(t)
    requires k < |t.rows| && t.rows[k].email == email
    requires forall i :: 0 <= i < |t.rows| ==> t.rows[i].resetToken != Some(token)
    requires usedAt < issuedAt + ResetTokenLifetime
    requires crypto.compare(newPassword, crypto.hash(newPassword))
    requires !crypto.compare(oldPassword, crypto.hash(newPassword))
    ensures
      var issued := ForgotPasswordStep(t, email, token, issuedAt);
      var s := ResetPasswordStep(issued, token, newPassword, usedAt, crypto);
      && s.result.Ok?
      && s.table.rows[k].password == crypto.hash(newPassword)
      && s.table.rows[k].resetToken.None? && s.table.rows[k].resetTokenExpiry.None?
      && Login(s.table, email, newPassword, crypto).Ok?
      && Login(s.table, email, oldPassword, crypto) == Err(InvalidCredentials)
  {
    var issued := ForgotPasswordStep(t, email, token, issuedAt);
    assert issued.rows[k] == WithResetToken(t.rows[k], token, issuedAt);
    assert HoldsLiveToken(issued.rows[k], token, usedAt);
    forall j | 0 <= j < |issued.rows| && j != k ensures !HoldsLiveToken(issued.rows[j], token, usedAt) {
      assert t.rows[j].email != email;
    }
    var s := ResetPasswordStep(issued, token, newPassword, usedAt, crypto);
    var i :| 0 <= i < |issued.rows| && HoldsLiveToken(issued.rows[i], token, usedAt)
      && s.table.rows == issued.rows[i := WithNewPassword(issued.rows[i], crypto.hash(newPassword), usedAt)];
    assert i == k;
    assert s.table.rows[k].email == email;
    LookupsFindTheRow(s.table, k);
  }

  /** The expiry comparison is strict: at the expiry instant or later the token is refused. */
  lemma ResetAtExpiryFails(t: Table, email: string, token: string, issuedAt: int, usedAt: int, p: string, crypto: Crypto)
    requires ValidTable(t)
    requires forall i :: 0 <= i < |t.rows| ==> t.rows[i].resetToken != Some(token)
    requires usedAt >= issuedAt + ResetTokenLifetime
    ensures
      var issued := ForgotPasswordStep(t, email, token, issuedAt);
      ResetPasswordStep(issued, token, p, usedAt, crypto).result == Err(InvalidResetToken)
  {
    var issued := ForgotPasswordStep(t, email, token, issuedAt);
    forall j | 0 <= j < |issued.rows| ensures !HoldsLiveToken(issued.rows[j], token, usedAt) {
      if t.rows[j].email == email {
        assert issued.rows[j] == WithResetToken(t.rows[j], token, issuedAt);
      }
    }
  }

  /** A second `forgotPassword` for the same email replaces the first token, which stops working. */
  lemma SecondRequestRevokesFirstToken(
    t: Table, email: string, first: string, second: string, at1: int, at2: int, usedAt: int, p: string, crypto: Crypto)
    requires ValidTable(t)
    requires forall i :: 0 <= i < |t.rows| ==> t.rows[i].resetToken != Some(first)
    requires first != second
    ensures
      var twice := ForgotPasswordStep(ForgotPasswordStep(t, email, first, at1), email, second, at2);
      ResetPasswordStep(twice, first, p, usedAt, crypto).result == Err(InvalidResetToken)
  {
    var once := ForgotPasswordStep(t, email, first, at1);
    var twice := ForgotPasswordStep(once, email, second, at2);
    forall j | 0 <= j < |twice.rows| ensures twice.rows[j].resetToken != Some(first) {
      if t.rows[j].email == email {
        assert once.rows[j].email == email;
        assert twice.rows[j] == WithResetToken(once.rows[j], second, at2);
      } else {
        assert once.rows[j].email != email;
      }
    }
  }

  /** Login strips only the password: a pending reset token is returned to the caller. */
  lemma LoginReturnsPendingResetToken(
    t: Table, email: string, token: string, now: int, password: string, crypto: Crypto, k: nat)
    requires ValidTable(t)
    requires k < |t.rows| && t.rows[k].email == email
    requires crypto.compare(password, t.rows[k].password)
    ensures
      var l := Login(ForgotPasswordStep(t, email, token, now), email, password, crypto);
      l.Ok? && l.value.user.resetToken == Some(token) && l.value.user.resetTokenExpiry == Some(now + ResetTokenLifetime)
  {
    var issued := ForgotPasswordStep(t, email, token, now);
    assert issued.rows[k] == WithResetToken(t.rows[k], token, now);
    LookupsFindTheRow(issued, k);
  }

  /** The service class: each static method updates the shared table in place. */
  class AuthService {

    static method Signup(table: UserTable, name: string, email: string, password: string, now: int, crypto: Crypto)
      returns (r: Result<SignupResponse, ApiError>)
      requires table.Valid()
      modifies table
      ensures table.Valid()
      ensures
        var s := SignupStep(old(table.Snapshot()), name, email, password, now, crypto);
        table.Snapshot() == s.table && r == s.result
    {
      var existing := FindByEmail(table.rows, email);
      if existing.Some? {
        return Err(UserExists);
      }
      var hashed := crypto.hash(password);
      var user := NewUser(table.nextId, name, email, hashed, now);
      table.rows := table.rows + [user];
      table.nextId := table.nextId + 1;
      var token := crypto.sign(PayloadOf(user));
      r := Ok(SignupResponse(View(user), token));
    }

    static method ForgotPassword(table: UserTable, email: string, token: string, now: int)
      requires table.Valid()
      modifies table
      ensures table.Valid()
      ensures table.Snapshot() == ForgotPasswordStep(old(table.Snapshot()), email, token, now)
    {
      var found := FindByEmail(table.rows, email);
      if found.None? {
        return;
      }
      var i := found.value;
      table.rows := table.rows[i := WithResetToken(table.rows[i], token, now)];
    }

    static method ResetPassword(table: UserTable, token: string, newPassword: string, now: int, crypto: Crypto)
      returns (r: Result<(), ApiError>)
      requires table.Valid()
      modifies table
      ensures table.Valid()
      ensures
        var s := ResetPasswordStep(old(table.Snapshot()), token, newPassword, now, crypto);
        table.Snapshot() == s.table && r == s.result
    {
      var found := FindFirst(table.rows, (u: User) => HoldsLiveToken(u, token, now));
      if found.None? {
        return Err(InvalidResetToken);
      }
      var hashed := crypto.hash(newPassword);
      var i := found.value;
      table.rows := table.rows[i := WithNewPassword(table.rows[i], hashed, now)];
      r := Ok(());
    }
  }
}
