/** Session gating (backend/middleware/authMiddleware.js): where the token is
    taken from, the order of the checks in `authMiddleware` and
    `authMiddlewareUnverified`, and the status code `errorMiddleware`
    answers with. JWT verification (backend/utils/jwt.js) is the parameter
    `verify`, which yields the user id the token names or nothing. */
module AuthMiddleware {

  import opened Base
  import Text
  import opened UserModel

  /** The parts of a request the middleware reads: the Authorization header
      and the `token` cookie. */
  datatype Request = Request(authorization: Option<string>, cookieToken: Option<string>)

  const BEARER: string := "Bearer"

  const AUTH_REQUIRED_MESSAGE: string := "Authentication required"
  const INVALID_TOKEN_MESSAGE: string := "Invalid or expired token"
  const USER_NOT_FOUND_MESSAGE: string := "User not found"
  const BLOCKED_MESSAGE: string := "Account is blocked"
  const NOT_VERIFIED_MESSAGE: string := "Account not verified"

  /** The Authorization header is used when it starts with "Bearer". */
  predicate UsesBearer(req: Request)
  {
    Truthy(req.authorization) && Text.StartsWith(req.authorization.value, BEARER)
  }

  /** `authorization.split(" ")[1]`: `None` stands for `undefined`. */
  function SecondField(s: string): (r: Option<string>)
    ensures r.Some? ==> ' ' !in r.value
    ensures r.None? <==> ' ' !in s
  {
    var parts := Text.Split(s, ' ');
    if |parts| >= 2 then Some(parts[1])
    else
      assert Text.IndexOf(s, ' ').None?;
      None
  }

  /** The token: the second space-separated field of a Bearer header,
      otherwise the cookie. */
  function ExtractToken(req: Request): (t: Option<string>)
    ensures UsesBearer(req) ==> t == SecondField(req.authorization.value)
    ensures !UsesBearer(req) ==> t == (if Truthy(req.cookieToken) then req.cookieToken else None)
  {
    if UsesBearer(req) then SecondField(req.authorization.value)
    else if Truthy(req.cookieToken) then req.cookieToken
    else None
  }

  /** A header "Bearer <t>" yields `t` (when `t` has no space), and the
      cookie is then never consulted, even when `t` is empty. */
  lemma BearerTokenRoundTrip(t: string, cookie1: Option<string>, cookie2: Option<string>)
    requires ' ' !in t
    ensures ExtractToken(Request(Some(BEARER + " " + t), cookie1)) == Some(t)
    ensures ExtractToken(Request(Some(BEARER + " " + t), cookie1)) == ExtractToken(Request(Some(BEARER + " " + t), cookie2))
  {
    var h := BEARER + " " + t;
    assert h[..|BEARER|] == BEARER;
    assert Text.IndexOf(h, ' ') == Some(6) by {
      assert h[6] == ' ';
      assert ' ' !in h[..6];
    }
    assert h[7..] == t;
    assert Text.IndexOf(t, ' ').None?;
    assert Text.Split(t, ' ') == [t];
    assert Text.Split(h, ' ') == [h[..6]] + Text.Split(h[7..], ' ');
  }

  /** A bare "Bearer" header names no token, so the request is refused as
      unauthenticated whatever cookie it carries. */
  lemma BareBearerIgnoresCookie(users: seq<User>, cookie: Option<string>, verify: string -> Option<ObjectId>)
    ensures Authenticate(users, Request(Some(BEARER), cookie), verify) == Err(HttpError(401, AUTH_REQUIRED_MESSAGE))
  {
    assert BEARER[..|BEARER|] == BEARER;
    assert ' ' !in BEARER;
  }

  /** The checks both middlewares share: a token is present, verifies, and
      names an existing user. */
  function IdentifyUser(users: seq<User>, req: Request, verify: string -> Option<ObjectId>): (r: Result<User>)
    ensures r.Ok? ==> r.value in users
    ensures r.Err? ==> r.error.statusCode == Some(401)
    ensures r.Ok? <==> Truthy(ExtractToken(req)) && verify(ExtractToken(req).value).Some?
                       && FindById(users, verify(ExtractToken(req).value).value).Some?
  {
    var token := ExtractToken(req);
    if !Truthy(token) then Err(HttpError(401, AUTH_REQUIRED_MESSAGE))
    else match verify(token.value)
      case None => Err(HttpError(401, INVALID_TOKEN_MESSAGE))
      case Some(id) =>
        match FindById(users, id)
        case None => Err(HttpError(401, USER_NOT_FOUND_MESSAGE))
        case Some(u) => Ok(u)
  }

  /** `authMiddleware`: the identified user is also checked for being
      blocked, then for being unverified. */
  function Authenticate(users: seq<User>, req: Request, verify: string -> Option<ObjectId>): (r: Result<User>)
    ensures r.Ok? ==> r.value in users && r.value.status == Active && r.value.isVerified
  {
    match IdentifyUser(users, req, verify)
    case Err(e) => Err(e)
    case Ok(u) =>
      match u.status
      case Blocked => Err(HttpError(403, BLOCKED_MESSAGE))
      case Active => if !u.isVerified then Err(HttpError(403, NOT_VERIFIED_MESSAGE)) else Ok(u)
  }

  /** `authMiddlewareUnverified`: the same token and user checks only. */
  function AuthenticateUnverified(users: seq<User>, req: Request, verify: string -> Option<ObjectId>): (r: Result<User>)
    ensures r.Ok? ==> r.value in users
  {
    IdentifyUser(users, req, verify)
  }

  /** The two middlewares differ only in the two 403s: whatever the lenient
      one refuses the strict one refuses identically; whatever it admits the
      strict one admits too, or refuses with 403 "Account is blocked" for a
      blocked user (even an unverified one) and with 403 "Account not
      verified" for an active unverified one. */
  lemma StrictRefinesLenient(users: seq<User>, req: Request, verify: string -> Option<ObjectId>)
    ensures AuthenticateUnverified(users, req, verify).Err? ==>
      Authenticate(users, req, verify) == AuthenticateUnverified(users, req, verify)
    ensures var lenient := AuthenticateUnverified(users, req, verify);
      lenient.Ok? ==>
        Authenticate(users, req, verify) ==
          if lenient.value.status == Blocked then Err(HttpError(403, BLOCKED_MESSAGE))
          else if !lenient.value.isVerified then Err(HttpError(403, NOT_VERIFIED_MESSAGE))
          else lenient
  {
  }

  /** The strict middleware admits a request exactly when its token names an
      existing, active and verified user; in every other case it answers 401
      or 403. */
  lemma AuthenticateIff(users: seq<User>, req: Request, verify: string -> Option<ObjectId>)
    ensures Authenticate(users, req, verify).Ok? <==>
      exists u :: IdentifyUser(users, req, verify) == Ok(u) && u.status == Active && u.isVerified
    ensures Authenticate(users, req, verify).Err? ==>
      Authenticate(users, req, verify).error.statusCode in {Some(401), Some(403)}
  {
    if Authenticate(users, req, verify).Ok? {
      assert IdentifyUser(users, req, verify) == Ok(Authenticate(users, req, verify).value);
    }
  }

  // ------------------------------------------------------- error handler

  /** `errorMiddleware`'s response: the error's status code, or 500 when it
      has none (a code of 0 is falsy and also gives 500). */
  datatype ErrorResponse = ErrorResponse(status: int, message: string)

  function ErrorMiddleware(err: AppError): (r: ErrorResponse)
    ensures r.message == err.message
    ensures err.statusCode.Some? && err.statusCode.value != 0 ==> r.status == err.statusCode.value
    ensures err.statusCode.None? || err.statusCode == Some(0) ==> r.status == 500
  {
    ErrorResponse(if err.statusCode.Some? && err.statusCode.value != 0 then err.statusCode.value else 500, err.message)
  }

  /** Every error the gatekeepers raise reaches the client with its own
      status code. */
  lemma GateErrorsKeepTheirStatus(users: seq<User>, req: Request, verify: string -> Option<ObjectId>)
    ensures Authenticate(users, req, verify).Err? ==>
      ErrorMiddleware(Authenticate(users, req, verify).error).status in {401, 403}
  {
    AuthenticateIff(users, req, verify);
  }
}
