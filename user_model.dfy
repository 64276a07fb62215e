/** The User record and its collection (backend/models/User.js). */
module UserModel {

  import opened Base
  import Text

  datatype UserStatus = Active | Blocked

  /** A user document. Optional schema fields are `Option`s. The password
      reset fields and `lastLoginAt` are not used by the services modelled
      here and are omitted. */
  datatype User = User(
    id: ObjectId,
    name: string,
    email: string,
    passwordHash: string,
    status: UserStatus,
    isVerified: bool,
    apiKey: Option<string>,
    webhookSecret: Option<string>,
    callbackUrl: Option<string>,
    emailVerificationOTP: Option<string>,
    emailVerificationOTPExpires: Option<Millis>,
    otpLastSentAt: Option<Millis>,
    createdAt: Millis)

  /** A new document as the schema builds it: status `active` and `isVerified`
      false by default, the email passed through the `lowercase` setter, no
      callback URL and no OTP state. */
  function NewUser(id: ObjectId, name: string, email: string, passwordHash: string,
                   apiKey: string, webhookSecret: string, now: Millis): (u: User)
    ensures u.id == id && u.status == Active && !u.isVerified
    ensures Text.IsLower(u.email) && u.email == Text.ToLower(email)
    ensures u.apiKey == Some(apiKey) && u.webhookSecret == Some(webhookSecret)
    ensures u.callbackUrl.None? && u.emailVerificationOTP.None? && u.otpLastSentAt.None?
  {
    User(id, name, Text.ToLower(email), passwordHash, Active, false,
         Some(apiKey), Some(webhookSecret), None, None, None, None, now)
  }

  /** Two distinct documents that a unique index would refuse to hold together:
      same email, or the same present `apiKey` or `webhookSecret`. */
  predicate Clash(a: User, b: User)
  {
    a.email == b.email
    || (a.apiKey.Some? && a.apiKey == b.apiKey)
    || (a.webhookSecret.Some? && a.webhookSecret == b.webhookSecret)
  }

  /** The collection's invariants: distinct ids, emails stored lower-cased,
      and `email`, `apiKey` and `webhookSecret` each unique. */
  predicate UsersValid(users: seq<User>)
  {
    && (forall i :: 0 <= i < |users| ==> Text.IsLower(users[i].email))
    && (forall i, j :: 0 <= i < j < |users| ==> users[i].id != users[j].id && !Clash(users[i], users[j]))
  }

  /** Some document other than `u` itself that clashes with `u`. */
  predicate ClashesWithOther(users: seq<User>, u: User)
  {
    exists i :: 0 <= i < |users| && users[i].id != u.id && (Clash(users[i], u) || Clash(u, users[i]))
  }

  function IndexOfId(users: seq<User>, id: ObjectId): (r: Option<nat>)
    ensures r.Some? ==> r.value < |users| && users[r.value].id == id
    ensures r.None? ==> forall i :: 0 <= i < |users| ==> users[i].id != id
  {
    FirstIndex(users, (u: User) => u.id == id)
  }

  /** `User.findById(id)`. */
  function FindById(users: seq<User>, id: ObjectId): (r: Option<User>)
    ensures r.Some? ==> r.value in users && r.value.id == id
    ensures r.None? ==> forall u :: u in users ==> u.id != id
  {
    Find(users, (u: User) => u.id == id)
  }

  /** `User.findOne({ email })`: the `lowercase` setter also applies to the
      query value, so the lookup ignores the case of ASCII letters. */
  function FindByEmail(users: seq<User>, email: string): (r: Option<User>)
    ensures r.Some? ==> r.value in users && r.value.email == Text.ToLower(email)
    ensures r.None? ==> forall u :: u in users ==> u.email != Text.ToLower(email)
  {
    Find(users, (u: User) => u.email == Text.ToLower(email))
  }

  predicate DistinctIds(users: seq<User>)
  {
    forall i, j :: 0 <= i < j < |users| ==> users[i].id != users[j].id
  }

  /** `user.save()` on a loaded document: the stored copy is replaced; the
      save fails when the document is gone or a unique index is violated. */
  function SaveUser(users: seq<User>, u: User): (r: Result<seq<User>>)
    ensures r.Ok? ==> |r.value| == |users| && u in r.value
    ensures r.Ok? && DistinctIds(users) ==>
      forall i :: 0 <= i < |users| ==> r.value[i] == (if users[i].id == u.id then u else users[i])
    ensures r.Ok? <==> IndexOfId(users, u.id).Some? && !ClashesWithOther(users, u)
  {
    match IndexOfId(users, u.id)
    case None => Err(AppError(None, "DocumentNotFoundError"))
    case Some(i) =>
      if ClashesWithOther(users, u) then Err(DuplicateKey)
      else
        assert users[i := u][i] == u;
        Ok(users[i := u])
  }

  lemma SaveKeepsValid(users: seq<User>, u: User)
    requires UsersValid(users) && Text.IsLower(u.email)
    ensures SaveUser(users, u).Ok? ==> UsersValid(SaveUser(users, u).value)
  {
    if SaveUser(users, u).Ok? {
      var s := SaveUser(users, u).value;
      forall i, j | 0 <= i < j < |s|
        ensures s[i].id != s[j].id && !Clash(s[i], s[j])
      {
        if s[i] == u || s[j] == u {
          assert !ClashesWithOther(users, u);
        }
      }
    }
  }

  /** The outcome of an operation on the users collection and the
      collection after it. */
  datatype UserRun<T> = UserRun(result: Result<T>, users: seq<User>)

  /** The collection with the document of `v`'s id replaced by `v`. */
  function Replaced(users: seq<User>, v: User): (r: seq<User>)
    ensures |r| == |users| && forall i :: 0 <= i < |users| && users[i].id != v.id ==> r[i] == users[i]
  {
    seq(|users|, i requires 0 <= i < |users| => if users[i].id == v.id then v else users[i])
  }

  /** The saved document is stored, in the place of the one it replaces. */
  lemma ReplacedHolds(users: seq<User>, u: User, v: User)
    requires u in users && v.id == u.id
    ensures v in Replaced(users, v)
  {
    var j :| 0 <= j < |users| && users[j] == u;
    assert Replaced(users, v)[j] == v;
  }

  /** Saving the same document twice keeps only the second save. */
  lemma ReplacedTwice(users: seq<User>, v: User, w: User)
    requires v.id == w.id
    ensures Replaced(Replaced(users, v), w) == Replaced(users, w)
  {
  }

  lemma ClashSymmetric(a: User, b: User)
    ensures Clash(a, b) <==> Clash(b, a)
  {
  }

  /** Saving a loaded document whose unique fields are unchanged always
      succeeds, replaces that one document and keeps the invariants. */
  lemma SaveKeepingKeys(users: seq<User>, u: User, v: User)
    requires UsersValid(users) && u in users
    requires v.id == u.id && v.email == u.email && v.apiKey == u.apiKey && v.webhookSecret == u.webhookSecret
    ensures SaveUser(users, v) == Ok(Replaced(users, v))
    ensures UsersValid(Replaced(users, v))
  {
    var j :| 0 <= j < |users| && users[j] == u;
    forall i | 0 <= i < |users| && users[i].id != v.id
      ensures !(Clash(users[i], v) || Clash(v, users[i]))
    {
      ClashSymmetric(users[i], users[j]);
    }
    assert !ClashesWithOther(users, v);
    SaveKeepsValid(users, v);
    assert SaveUser(users, v).value == Replaced(users, v);
  }

  /** Emails are unique, so the user holding an email is the one found by it. */
  lemma FindByEmailUnique(users: seq<User>, u: User, email: string)
    requires UsersValid(users) && u in users && u.email == Text.ToLower(email)
    ensures FindByEmail(users, email) == Some(u)
  {
    var g := FindByEmail(users, email).value;
    var a :| 0 <= a < |users| && users[a] == u;
    var b :| 0 <= b < |users| && users[b] == g;
    assert users[a].email == users[b].email;
    assert a == b;
  }

  /** The users collection. */
  class UserCollection {
    var users: seq<User>
    var nextId: ObjectId

    ghost predicate Valid()
      reads this
    {
      UsersValid(users) && forall i :: 0 <= i < |users| ==> users[i].id < nextId
    }

    constructor ()
      ensures Valid() && users == []
    {
      users := [];
      nextId := 0;
    }

    /** `User.create(...)`: insert with a fresh id, unless a unique index refuses. */
    method Create(name: string, email: string, passwordHash: string,
                  apiKey: string, webhookSecret: string, now: Millis) returns (r: Result<User>)
      requires Valid()
      modifies this
      ensures Valid()
      ensures r.Ok? ==> r.value == NewUser(old(nextId), name, email, passwordHash, apiKey, webhookSecret, now)
      ensures r.Ok? ==> users == old(users) + [r.value]
      ensures r.Ok? <==> !ClashesWithOther(old(users), NewUser(old(nextId), name, email, passwordHash, apiKey, webhookSecret, now))
      ensures r.Err? ==> users == old(users) && r.error == DuplicateKey
    {
      var u := NewUser(nextId, name, email, passwordHash, apiKey, webhookSecret, now);
      if ClashesWithOther(users, u) {
        return Err(DuplicateKey);
      }
      forall i, j | 0 <= i < j < |users + [u]|
        ensures (users + [u])[i].id != (users + [u])[j].id && !Clash((users + [u])[i], (users + [u])[j])
      {
        if j == |users| {
          assert users[i].id != u.id;
        }
      }
      users := users + [u];
      nextId := nextId + 1;
      r := Ok(u);
    }

    /** `user.save()`. */
    method Save(u: User) returns (r: Result<User>)
      requires Valid() && Text.IsLower(u.email)
      modifies this
      ensures Valid() && nextId == old(nextId)
      ensures SaveUser(old(users), u).Ok? ==> users == SaveUser(old(users), u).value && r == Ok(u)
      ensures SaveUser(old(users), u).Err? ==> users == old(users) && r == Err(SaveUser(old(users), u).error)
    {
      SaveKeepsValid(users, u);
      match SaveUser(users, u)
      case Ok(s) =>
        users := s;
        r := Ok(u);
      case Err(e) =>
        r := Err(e);
    }
  }
}
