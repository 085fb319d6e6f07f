/**
 * The request guards of backend/src/middleware/auth.ts. `authenticate` takes the bearer
 * credential from the Authorization header (the `Bearer` scheme of section 2.1 of RFC 6750),
 * has it verified, resolves the claimed user id against the current table and stores that
 * row's public view on the request; `authorize(roles)` is a role-membership test.
 * `jwt.verify` is foreign: its outcome for a token string is the parameter `verify`.
 */
module AuthMiddleware {
  import opened Wrappers
  import opened Text
  import opened ApiErrors
  import opened Users
  import opened Auth
  import opened Admin

  const BearerPrefix: string := "Bearer "

  /** What `jwt.verify` does with a token: returns its claims or throws (expired, bad signature, malformed). */
  datatype Verified = Valid(payload: Payload) | Invalid(errorName: string)

  const AccessTokenRequired := ApiError(401, "Access token required", None)
  const InvalidOrExpiredToken := ApiError(401, "Invalid or expired token", None)
  const TokenUserNotFound := ApiError(401, "User not found", None)
  const AuthenticationRequired := ApiError(401, "Authentication required", None)
  const InsufficientPermissions := ApiError(403, "Insufficient permissions", None)

  /** The credential after `Bearer `, if the header is present and starts with it. */
  function BearerToken(header: Option<string>): (r: Option<string>)
    ensures r.Some? <==> header.Some? && StartsWith(header.value, BearerPrefix)
    ensures r.Some? ==> header.value == BearerPrefix + r.value
  {
    if header.Some? && StartsWith(header.value, BearerPrefix) then
      var token := header.value[|BearerPrefix|..];
      assert header.value == header.value[..|BearerPrefix|] + token;
      Some(token)
    else
      None
  }

  /** Prefixing `Bearer ` and parsing give back the credential. */
  lemma BearerRoundTrip(token: string)
    ensures BearerToken(Some(BearerPrefix + token)) == Some(token)
  {
    assert (BearerPrefix + token)[..|BearerPrefix|] == BearerPrefix;
    assert (BearerPrefix + token)[|BearerPrefix|..] == token;
  }

  /** `authenticate`: the user it puts on the request, or the error it hands to `next`. */
  function Authenticate(header: Option<string>, verify: string -> Verified, t: Table): (r: Result<UserView, ApiError>)
    ensures r.Err? ==> r.error.statusCode == 401
    ensures BearerToken(header).None? ==> r == Err(AccessTokenRequired)
    ensures BearerToken(header).Some? && verify(BearerToken(header).value).Invalid? ==> r == Err(InvalidOrExpiredToken)
    ensures BearerToken(header).Some? && verify(BearerToken(header).value).Valid? ==>
      var claimed := verify(BearerToken(header).value).payload.userId;
      && ((forall i :: 0 <= i < |t.rows| ==> t.rows[i].id != claimed) ==> r == Err(TokenUserNotFound))
      && (forall i :: 0 <= i < |t.rows| && t.rows[i].id == claimed ==> r.Ok?)
    ensures r.Ok? ==>
      && BearerToken(header).Some? && verify(BearerToken(header).value).Valid?
      && exists i :: 0 <= i < |t.rows| && t.rows[i].id == verify(BearerToken(header).value).payload.userId
           && r.value == View(t.rows[i])
  {
    match BearerToken(header)
    case None => Err(AccessTokenRequired)
    case Some(token) =>
      match verify(token)
      case Invalid(_) => Err(InvalidOrExpiredToken)
      case Valid(decoded) =>
        match FindById(t.rows, decoded.userId)
        case None => Err(TokenUserNotFound)
        case Some(i) => Ok(View(t.rows[i]))
  }

  /** `authorize(roles)`: 401 without a user, checked before the 403 role test. */
  function Authorize(roles: seq<Role>, user: Option<UserView>): (n: Next)
    ensures user.None? ==> n == Abort(AuthenticationRequired)
    ensures user.Some? ==> (n == Continue <==> user.value.role in roles)
    ensures user.Some? ==> (n == Abort(InsufficientPermissions) <==> user.value.role !in roles)
  {
    if user.None? then Abort(AuthenticationRequired)
    else if user.value.role !in roles then Abort(InsufficientPermissions)
    else Continue
  }

  /** A token issued at login, presented as a bearer credential, resolves to the user who logged in. */
  lemma LoginTokenAuthenticates(t: Table, email: string, password: string, crypto: Crypto, verify: string -> Verified)
    requires ValidTable(t)
    requires Login(t, email, password, crypto).Ok?
    requires
      var l := Login(t, email, password, crypto).value;
      verify(l.token) == Valid(Payload(l.user.id, l.user.email, l.user.role))
    ensures
      var l := Login(t, email, password, crypto).value;
      var a := Authenticate(Some(BearerPrefix + l.token), verify, t);
      a.Ok? && a.value.id == l.user.id && a.value.email == email
  {
    var l := Login(t, email, password, crypto).value;
    BearerRoundTrip(l.token);
    var i :| 0 <= i < |t.rows| && t.rows[i].email == email && crypto.compare(password, t.rows[i].password)
      && l == LoginResponse(WithoutPassword(t.rows[i]), crypto.sign(PayloadOf(t.rows[i])));
    LookupsFindTheRow(t, i);
  }

  /**
   * Roles are read from the table, not from the token: once an admin is demoted, a token
   * issued while they were an admin no longer passes `authorize([ADMIN])`.
   */
  lemma DemotionTakesEffectAtOnce(t: Table, userId: UserId, now: int, header: Option<string>, verify: string -> Verified)
    requires ValidTable(t)
    requires BearerToken(header).Some?
    requires verify(BearerToken(header).value).Valid? && verify(BearerToken(header).value).payload.userId == userId
    requires exists i :: 0 <= i < |t.rows| && t.rows[i].id == userId
    ensures
      var after := UpdateUserRoleStep(t, userId, USER, now).table;
      var a := Authenticate(header, verify, after);
      a.Ok? && Authorize([ADMIN], Some(a.value)) == Abort(InsufficientPermissions)
  {
    var s := UpdateUserRoleStep(t, userId, USER, now);
    var i :| 0 <= i < |t.rows| && t.rows[i].id == userId && s.table.rows == t.rows[i := WithRole(t.rows[i], USER, now)];
    LookupsFindTheRow(s.table, i);
  }

  /** An incoming request: its Authorization header and the user `authenticate` attaches. */
  class Request {
    const authorization: Option<string>
    var user: Option<UserView>

    constructor (authorization: Option<string>)
      ensures this.authorization == authorization && user == None
    {
      this.authorization := authorization;
      user := None;
    }
  }

  /** `authenticate` on a request: sets `req.user` and continues, or leaves it and aborts. */
  method AuthenticateRequest(req: Request, table: UserTable, verify: string -> Verified) returns (n: Next)
    modifies req
    ensures
      match Authenticate(req.authorization, verify, table.Snapshot())
      case Ok(u) => n == Continue && req.user == Some(u)
      case Err(e) => n == Abort(e) && req.user == old(req.user)
  {
    var token := BearerToken(req.authorization);
    if token.None? {
      return Abort(AccessTokenRequired);
    }
    var decoded := verify(token.value);
    if decoded.Invalid? {
      return Abort(InvalidOrExpiredToken);
    }
    var found := FindById(table.rows, decoded.payload.userId);
    if found.None? {
      return Abort(TokenUserNotFound);
    }
    req.user := Some(View(table.rows[found.value]));
    n := Continue;
  }
}
