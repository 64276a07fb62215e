/** Merchant API gating (backend/middleware/apiKeyMiddleware.js): where the
    key is read from, and which users it admits. */
module ApiKeyMiddleware {

  import opened Base
  import Text
  import Keys
  import opened UserModel
  import UserService

  /** The headers the middleware reads. */
  datatype ApiRequest = ApiRequest(xApiKey: Option<string>, apiKeyHeader: Option<string>, authorization: Option<string>)

  const BEARER_PREFIX: string := "Bearer "

  const KEY_REQUIRED_MESSAGE: string := "API Key is required"
  const INVALID_KEY_MESSAGE: string := "Invalid or inactive API Key"
  const NOT_VERIFIED_MESSAGE: string := "Account not verified"

  /** `split(" ")[1]` of a header known to contain a space. */
  function FieldAfterSpace(s: string): (r: string)
    requires ' ' in s
    ensures ' ' !in r
  {
    assert Text.IndexOf(s, ' ').Some?;
    Text.Split(s, ' ')[1]
  }

  /** The key: `x-api-key`, else `api-key` (as `||` does, an empty first
      header falls through), and only when neither gives one the field
      after "Bearer " in Authorization. */
  function KeyOf(req: ApiRequest): (k: Option<string>)
    ensures Truthy(req.xApiKey) ==> k == req.xApiKey
    ensures !Truthy(req.xApiKey) && Truthy(req.apiKeyHeader) ==> k == req.apiKeyHeader
  {
    var fromHeaders := if Truthy(req.xApiKey) then req.xApiKey else req.apiKeyHeader;
    if !Truthy(fromHeaders) && Truthy(req.authorization) && Text.StartsWith(req.authorization.value, BEARER_PREFIX) then
      assert req.authorization.value[6] == ' ';
      Some(FieldAfterSpace(req.authorization.value))
    else fromHeaders
  }

  /** "Bearer <k>" yields `k` when no key header is set. */
  lemma BearerKeyRoundTrip(k: string, apiKeyHeader: Option<string>)
    requires ' ' !in k && !Truthy(apiKeyHeader)
    ensures KeyOf(ApiRequest(None, apiKeyHeader, Some(BEARER_PREFIX + k))) == Some(k)
  {
    var h := BEARER_PREFIX + k;
    assert h[..|BEARER_PREFIX|] == BEARER_PREFIX;
    assert Text.IndexOf(h, ' ') == Some(6) by {
      assert h[6] == ' ';
      assert ' ' !in h[..6];
    }
    assert h[7..] == k;
    assert Text.IndexOf(k, ' ').None?;
    assert Text.Split(k, ' ') == [k];
    assert Text.Split(h, ' ') == [h[..6]] + Text.Split(h[7..], ' ');
  }

  /** `User.findOne({ apiKey, status: "active" })`. */
  function FindActiveByKey(users: seq<User>, key: string): (r: Option<User>)
    ensures r.Some? ==> r.value in users && r.value.apiKey == Some(key) && r.value.status == Active
    ensures r.None? <==> forall u :: u in users ==> !(u.apiKey == Some(key) && u.status == Active)
  {
    Find(users, (u: User) => u.apiKey == Some(key) && u.status == Active)
  }

  /** `apiKeyMiddleware`: the user `req.user` is set to, or the error. */
  function AuthenticateKey(users: seq<User>, req: ApiRequest): (r: Result<User>)
    ensures r.Ok? ==> r.value in users && r.value.status == Active && r.value.isVerified
    ensures r.Ok? ==> KeyOf(req).Some? && r.value.apiKey == KeyOf(req)
    ensures r.Err? ==> r.error.statusCode in {Some(401), Some(403)}
  {
    var key := KeyOf(req);
    if !Truthy(key) then Err(HttpError(401, KEY_REQUIRED_MESSAGE))
    else match FindActiveByKey(users, key.value)
      case None => Err(HttpError(401, INVALID_KEY_MESSAGE))
      case Some(u) => if !u.isVerified then Err(HttpError(403, NOT_VERIFIED_MESSAGE)) else Ok(u)
  }

  /** Keys are unique, so a present key selects its holder: the request is
      admitted exactly when the holder is active and verified, refused with
      401 "Invalid or inactive API Key" when the holder is blocked (verified
      or not) or nobody holds the key, and with 403 when the holder is active
      but unverified. */
  lemma AuthenticateKeyCases(users: seq<User>, req: ApiRequest, u: User)
    requires UsersValid(users) && u in users && Truthy(KeyOf(req)) && u.apiKey == KeyOf(req)
    ensures AuthenticateKey(users, req) ==
      if u.status == Blocked then Err(HttpError(401, INVALID_KEY_MESSAGE))
      else if !u.isVerified then Err(HttpError(403, NOT_VERIFIED_MESSAGE))
      else Ok(u)
  {
    var j :| 0 <= j < |users| && users[j] == u;
    forall w | w in users && w.apiKey == u.apiKey
      ensures w == u
    {
      var i :| 0 <= i < |users| && users[i] == w;
      ClashSymmetric(users[i], users[j]);
      assert Clash(users[i], users[j]);
      assert i == j;
    }
  }

  /** Nobody holds the key: 401 "Invalid or inactive API Key". */
  lemma UnknownKeyRefused(users: seq<User>, req: ApiRequest)
    requires Truthy(KeyOf(req)) && forall u :: u in users ==> u.apiKey != KeyOf(req)
    ensures AuthenticateKey(users, req) == Err(HttpError(401, INVALID_KEY_MESSAGE))
  {
  }

  /** After a successful rotation the old key admits nobody: presenting it
      gives 401 "Invalid or inactive API Key". */
  lemma RotatedKeyRevoked(users: seq<User>, u: User, random: seq<Keys.Byte>, req: ApiRequest)
    requires UsersValid(users) && u in users && |random| == 16
    requires UserService.RotateApiKeySpec(users, u, random).result.Ok?
    requires Truthy(KeyOf(req)) && KeyOf(req) == u.apiKey && u.apiKey != Some(Keys.GenerateApiKey(random))
    ensures AuthenticateKey(UserService.RotateApiKeySpec(users, u, random).users, req) == Err(HttpError(401, INVALID_KEY_MESSAGE))
  {
    UserService.RotateApiKeyIff(users, u, random);
    UnknownKeyRefused(UserService.RotateApiKeySpec(users, u, random).users, req);
  }
}
