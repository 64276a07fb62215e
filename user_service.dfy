/** The merchant's own account (backend/services/userService.js): the two
    profile projections, the profile update and the rotation of the API key
    and of the webhook secret. The user is the document the auth middleware
    loaded; `crypto.randomBytes` is a parameter. */
module UserService {

  import opened Base
  import Keys
  import opened UserModel
  import PaymentOrderModel
  import WebhookService

  // ------------------------------------------------------------ profiles

  /** `getUserProfile`. */
  datatype Profile = Profile(id: ObjectId, name: string, email: string, status: UserStatus,
                             isVerified: bool, createdAt: Millis)

  /** `getDetailedProfile`: the profile plus the keys and the callback URL. */
  datatype DetailedProfile = DetailedProfile(id: ObjectId, name: string, email: string, status: UserStatus,
                                             isVerified: bool, apiKey: Option<string>, webhookSecret: Option<string>,
                                             callbackUrl: Option<string>, createdAt: Millis)

  function GetUserProfile(u: User): (p: Profile)
    ensures p.id == u.id && p.name == u.name && p.email == u.email && p.status == u.status
    ensures p.isVerified == u.isVerified && p.createdAt == u.createdAt
  {
    Profile(u.id, u.name, u.email, u.status, u.isVerified, u.createdAt)
  }

  function GetDetailedProfile(u: User): (p: DetailedProfile)
    ensures p.apiKey == u.apiKey && p.webhookSecret == u.webhookSecret && p.callbackUrl == u.callbackUrl
  {
    DetailedProfile(u.id, u.name, u.email, u.status, u.isVerified, u.apiKey, u.webhookSecret, u.callbackUrl, u.createdAt)
  }

  /** The plain profile reveals nothing beyond its six fields: two users
      that agree on them, whatever their keys, secrets, callback URLs,
      password hashes and OTP state, have the same profile. The detailed
      profile is the plain one plus the keys and the callback URL. */
  lemma ProfileHidesSecrets(u: User, w: User)
    requires u.id == w.id && u.name == w.name && u.email == w.email && u.status == w.status
    requires u.isVerified == w.isVerified && u.createdAt == w.createdAt
    ensures GetUserProfile(u) == GetUserProfile(w)
    ensures var d := GetDetailedProfile(u);
      Profile(d.id, d.name, d.email, d.status, d.isVerified, d.createdAt) == GetUserProfile(w)
  {
  }

  // ------------------------------------------------------ profile update

  /** The user after `updateProfile`: a non-empty name replaces the name,
      and any supplied callback URL (even "") replaces the callback URL. */
  function ProfileUpdate(u: User, name: Option<string>, callbackUrl: Option<string>): (v: User)
    ensures v.name == (if Truthy(name) then name.value else u.name)
    ensures v.callbackUrl == (if callbackUrl.Some? then callbackUrl else u.callbackUrl)
    ensures v.(name := u.name, callbackUrl := u.callbackUrl) == u
  {
    var named := if Truthy(name) then u.(name := name.value) else u;
    if callbackUrl.Some? then named.(callbackUrl := callbackUrl) else named
  }

  function UpdateProfileSpec(users: seq<User>, u: User, name: Option<string>, callbackUrl: Option<string>): UserRun<User>
  {
    var v := ProfileUpdate(u, name, callbackUrl);
    match SaveUser(users, v)
    case Err(e) => UserRun(Err(e), users)
    case Ok(saved) => UserRun(Ok(v), saved)
  }

  /** The update never touches a unique field, so it always saves: only
      this user changes, and the invariants hold afterwards. */
  lemma UpdateProfileSaves(users: seq<User>, u: User, name: Option<string>, callbackUrl: Option<string>)
    requires UsersValid(users) && u in users
    ensures UpdateProfileSpec(users, u, name, callbackUrl)
         == UserRun(Ok(ProfileUpdate(u, name, callbackUrl)), Replaced(users, ProfileUpdate(u, name, callbackUrl)))
    ensures UsersValid(Replaced(users, ProfileUpdate(u, name, callbackUrl)))
  {
    SaveKeepingKeys(users, u, ProfileUpdate(u, name, callbackUrl));
  }

  /** After an update that supplies a callback URL, the user's orders are
      notified exactly when that URL is non-empty: storing "" turns webhooks
      off. */
  lemma CallbackUrlGatesWebhooks(u: User, name: Option<string>, url: string,
                                 order: PaymentOrderModel.PaymentOrder, providerName: Option<string>)
    ensures WebhookService.WantsWebhook(WebhookService.OrderView(order, Some(ProfileUpdate(u, name, Some(url))), providerName))
        <==> url != ""
  {
  }

  // -------------------------------------------------------- key rotation

  /** `generateNewApiKey`: a key from 16 fresh random bytes replaces the old
      one; the unique index refuses a key another user holds. */
  function RotateApiKeySpec(users: seq<User>, u: User, random: seq<Keys.Byte>): UserRun<string>
    requires |random| == 16
  {
    var key := Keys.GenerateApiKey(random);
    match SaveUser(users, u.(apiKey := Some(key)))
    case Err(e) => UserRun(Err(e), users)
    case Ok(saved) => UserRun(Ok(key), saved)
  }

  /** `generateNewWebhookSecret`: likewise, from 32 random bytes. */
  function RotateWebhookSecretSpec(users: seq<User>, u: User, random: seq<Keys.Byte>): UserRun<string>
    requires |random| == 32
  {
    var secret := Keys.GenerateWebhookSecret(random);
    match SaveUser(users, u.(webhookSecret := Some(secret)))
    case Err(e) => UserRun(Err(e), users)
    case Ok(saved) => UserRun(Ok(secret), saved)
  }

  /** No other user holds `v`'s keys, everything else about `v` being `u`'s. */
  lemma SaveWithNewKey(users: seq<User>, u: User, v: User)
    requires UsersValid(users) && u in users
    requires v.id == u.id && v.email == u.email
    requires v.apiKey == u.apiKey || v.webhookSecret == u.webhookSecret
    ensures SaveUser(users, v).Ok? <==>
      forall w :: w in users && w.id != u.id ==>
        !(v.apiKey.Some? && w.apiKey == v.apiKey) && !(v.webhookSecret.Some? && w.webhookSecret == v.webhookSecret)
    ensures SaveUser(users, v).Ok? ==> SaveUser(users, v).value == Replaced(users, v)
    ensures SaveUser(users, v).Ok? ==> UsersValid(Replaced(users, v))
  {
    var j :| 0 <= j < |users| && users[j] == u;
    forall i | 0 <= i < |users| && users[i].id != v.id
      ensures users[i].email != v.email
    {
      ClashSymmetric(users[i], users[j]);
    }
    SaveIffKeysFree(users, j, v);
    if SaveUser(users, v).Ok? {
      SaveKeepsValid(users, v);
      assert SaveUser(users, v).value == Replaced(users, v);
    }
  }

  /** With the email kept, only the api key and the webhook secret can clash. */
  lemma SaveIffKeysFree(users: seq<User>, j: nat, v: User)
    requires j < |users| && users[j].id == v.id
    requires forall i :: 0 <= i < |users| && users[i].id != v.id ==> users[i].email != v.email
    ensures SaveUser(users, v).Ok? <==>
      forall w :: w in users && w.id != v.id ==>
        !(v.apiKey.Some? && w.apiKey == v.apiKey) && !(v.webhookSecret.Some? && w.webhookSecret == v.webhookSecret)
  {
    assert IndexOfId(users, v.id).Some?;
    if !SaveUser(users, v).Ok? {
      var i :| 0 <= i < |users| && users[i].id != v.id && (Clash(users[i], v) || Clash(v, users[i]));
      assert users[i] in users;
    }
  }

  /** The rotation succeeds exactly when no other user holds the new key;
      then it returns that key, changes only this user's `apiKey`, and the
      old key belongs to nobody any more. */
  lemma RotateApiKeyIff(users: seq<User>, u: User, random: seq<Keys.Byte>)
    requires UsersValid(users) && u in users && |random| == 16
    ensures var run := RotateApiKeySpec(users, u, random);
      run.result.Ok? <==> forall w :: w in users && w.id != u.id ==> w.apiKey != Some(Keys.GenerateApiKey(random))
    ensures var run := RotateApiKeySpec(users, u, random);
      run.result.Ok? ==>
        && run.result.value == Keys.GenerateApiKey(random)
        && run.users == Replaced(users, u.(apiKey := Some(Keys.GenerateApiKey(random))))
        && UsersValid(run.users)
        && (u.apiKey != Some(Keys.GenerateApiKey(random)) ==> forall w :: w in run.users ==> u.apiKey.None? || w.apiKey != u.apiKey)
    ensures RotateApiKeySpec(users, u, random).result.Err? ==> RotateApiKeySpec(users, u, random).users == users
  {
    var v := u.(apiKey := Some(Keys.GenerateApiKey(random)));
    SaveWithNewKey(users, u, v);
    if SaveUser(users, v).Ok? && u.apiKey.Some? && u.apiKey != v.apiKey {
      OldKeyGone(users, u, v);
    }
  }

  /** The same for the webhook secret. */
  lemma RotateWebhookSecretIff(users: seq<User>, u: User, random: seq<Keys.Byte>)
    requires UsersValid(users) && u in users && |random| == 32
    ensures var run := RotateWebhookSecretSpec(users, u, random);
      run.result.Ok? <==> forall w :: w in users && w.id != u.id ==> w.webhookSecret != Some(Keys.GenerateWebhookSecret(random))
    ensures var run := RotateWebhookSecretSpec(users, u, random);
      run.result.Ok? ==>
        && run.result.value == Keys.GenerateWebhookSecret(random)
        && run.users == Replaced(users, u.(webhookSecret := Some(Keys.GenerateWebhookSecret(random))))
        && UsersValid(run.users)
    ensures RotateWebhookSecretSpec(users, u, random).result.Err? ==> RotateWebhookSecretSpec(users, u, random).users == users
  {
    SaveWithNewKey(users, u, u.(webhookSecret := Some(Keys.GenerateWebhookSecret(random))));
  }

  /** After `u`'s key is replaced by another, nobody holds the old one: it
      was `u`'s alone. */
  lemma OldKeyGone(users: seq<User>, u: User, v: User)
    requires UsersValid(users) && u in users && u.apiKey.Some?
    requires v.id == u.id && v.apiKey != u.apiKey
    ensures forall w :: w in Replaced(users, v) ==> w.apiKey != u.apiKey
  {
    var j :| 0 <= j < |users| && users[j] == u;
    var after := Replaced(users, v);
    forall w | w in after
      ensures w.apiKey != u.apiKey
    {
      var i :| 0 <= i < |after| && after[i] == w;
      if users[i].id != u.id {
        ClashSymmetric(users[i], users[j]);
        assert i != j;
      }
    }
  }

  // -------------------------------------------------------------- store

  /** `updateProfile` against the users collection. */
  method UpdateProfile(store: UserCollection, u: User, name: Option<string>, callbackUrl: Option<string>)
    returns (r: Result<User>)
    requires store.Valid() && u in store.users
    modifies store
    ensures store.Valid() && store.nextId == old(store.nextId)
    ensures UserRun(r, store.users) == UpdateProfileSpec(old(store.users), u, name, callbackUrl)
  {
    var v := u;
    if Truthy(name) {
      v := v.(name := name.value);
    }
    if callbackUrl.Some? {
      v := v.(callbackUrl := callbackUrl);
    }
    assert v == ProfileUpdate(u, name, callbackUrl);
    var j :| 0 <= j < |store.users| && store.users[j] == u;
    r := store.Save(v);
  }

  /** `generateNewApiKey` against the users collection. */
  method GenerateNewApiKey(store: UserCollection, u: User, random: seq<Keys.Byte>) returns (r: Result<string>)
    requires store.Valid() && u in store.users && |random| == 16
    modifies store
    ensures store.Valid() && store.nextId == old(store.nextId)
    ensures UserRun(r, store.users) == RotateApiKeySpec(old(store.users), u, random)
  {
    var key := Keys.GenerateApiKey(random);
    var j :| 0 <= j < |store.users| && store.users[j] == u;
    var saved := store.Save(u.(apiKey := Some(key)));
    if saved.Err? {
      return Err(saved.error);
    }
    return Ok(key);
  }

  /** `generateNewWebhookSecret` against the users collection. */
  method GenerateNewWebhookSecret(store: UserCollection, u: User, random: seq<Keys.Byte>) returns (r: Result<string>)
    requires store.Valid() && u in store.users && |random| == 32
    modifies store
    ensures store.Valid() && store.nextId == old(store.nextId)
    ensures UserRun(r, store.users) == RotateWebhookSecretSpec(old(store.users), u, random)
  {
    var secret := Keys.GenerateWebhookSecret(random);
    var j :| 0 <= j < |store.users| && store.users[j] == u;
    var saved := store.Save(u.(webhookSecret := Some(secret)));
    if saved.Err? {
      return Err(saved.error);
    }
    return Ok(secret);
  }
}
