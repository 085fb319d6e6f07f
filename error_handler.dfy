/**
 * The Express error handler of backend/src/middleware/errorHandler.ts: it turns whatever was
 * passed to `next(error)` into an HTTP status and a JSON body, trying in order an `ApiError`,
 * a Prisma unique-constraint violation, the two jsonwebtoken errors, and a default 500.
 * `process.env.NODE_ENV === "development"` is the parameter `development`.
 */
module ErrorHandler {
  import opened Wrappers
  import opened ApiErrors
  import opened Users
  import opened Auth
  import opened AuthMiddleware

  /** A thrown value: an `ApiError`, or any other `Error` with its `name`, Prisma `code` and `message`. */
  datatype Thrown = Api(apiError: ApiError) | Other(name: string, code: Option<string>, message: string)

  /** The body's `error` field: a string, or the details array of an `ApiError`. */
  datatype ErrorField = Text(text: string) | Lines(lines: seq<string>)

  datatype Body = Body(success: bool, message: string, error: ErrorField)

  datatype Response = Response(status: int, body: Body)

  /** A Prisma known-request error with code P2002 (unique constraint violated). */
  predicate IsDuplicateEntry(err: Thrown) {
    err.Other? && err.name == "PrismaClientKnownRequestError" && err.code == Some("P2002")
  }

  /** `errorHandler`. */
  function HandleError(err: Thrown, development: bool): (r: Response)
    ensures !r.body.success
    ensures err.Api? ==>
      && r.status == err.apiError.statusCode
      && r.body.message == err.apiError.message
      && r.body.error == (if err.apiError.details.Some? then Lines(err.apiError.details.value) else Text(err.apiError.message))
    ensures IsDuplicateEntry(err) ==> r == Response(409, Body(false, "Resource already exists", Text("Duplicate entry")))
    ensures err.Other? && !IsDuplicateEntry(err) && err.name == "JsonWebTokenError" ==>
      r == Response(401, Body(false, "Invalid token", Text("Authentication failed")))
    ensures err.Other? && !IsDuplicateEntry(err) && err.name == "TokenExpiredError" ==>
      r == Response(401, Body(false, "Token expired", Text("Please login again")))
    ensures err.Other? ==>
      (r.status == 500 <==> !IsDuplicateEntry(err) && err.name != "JsonWebTokenError" && err.name != "TokenExpiredError")
    ensures err.Other? && r.status == 500 ==>
      r.body == Body(false, "Internal server error", Text(if development then err.message else "Something went wrong"))
  {
    match err
    case Api(e) =>
      Response(e.statusCode, Body(false, e.message, if e.details.Some? then Lines(e.details.value) else Text(e.message)))
    case Other(name, code, message) =>
      if name == "PrismaClientKnownRequestError" && code == Some("P2002") then
        Response(409, Body(false, "Resource already exists", Text("Duplicate entry")))
      else if name == "JsonWebTokenError" then
        Response(401, Body(false, "Invalid token", Text("Authentication failed")))
      else if name == "TokenExpiredError" then
        Response(401, Body(false, "Token expired", Text("Please login again")))
      else
        Response(500, Body(false, "Internal server error", Text(if development then message else "Something went wrong")))
  }

  /**
   * A caller cannot tell an unknown email from a wrong password: both login failures reach
   * the client as the same 401 response.
   */
  lemma LoginFailuresLookAlike(
    t: Table, email1: string, password1: string, email2: string, password2: string, crypto: Crypto, development: bool)
    requires forall i :: 0 <= i < |t.rows| ==> t.rows[i].email != email1
    requires exists i :: 0 <= i < |t.rows| && t.rows[i].email == email2 && !crypto.compare(password2, t.rows[i].password)
    requires ValidTable(t)
    ensures Login(t, email1, password1, crypto).Err? && Login(t, email2, password2, crypto).Err?
    ensures
      var r1 := HandleError(Api(Login(t, email1, password1, crypto).error), development);
      var r2 := HandleError(Api(Login(t, email2, password2, crypto).error), development);
      r1 == r2 && r1 == Response(401, Body(false, "Invalid email or password", Text("Invalid email or password")))
  {
  }

  /** Every failure of the two guards reaches the client as a 401 or a 403 with its own message. */
  lemma GuardFailuresAreClientErrors(
    header: Option<string>, verify: string -> Verified, t: Table, roles: seq<Role>, user: Option<UserView>, development: bool)
    ensures Authenticate(header, verify, t).Err? ==>
      var e := Authenticate(header, verify, t).error;
      HandleError(Api(e), development) == Response(401, Body(false, e.message, Text(e.message)))
    ensures Authorize(roles, user).Abort? ==>
      var e := Authorize(roles, user).error;
      HandleError(Api(e), development).status in {401, 403}
  {
  }
}
