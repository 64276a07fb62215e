/** Account and email-verification flows (backend/services/authService.js):
    OTP generation, issue with a one-minute cooldown, verification with a
    ten-minute expiry, registration and login. `Math.random()`,
    `crypto.randomBytes`, bcrypt, the JWT signer and the mailer are
    parameters; all reads of `Date.now()` within one call share `now`. */
module AuthService {

  import opened Base
  import Text
  import Keys
  import opened UserModel

  // ------------------------------------------------------------------ OTP

  /** `generateOTP`: `Math.floor(100000 + random * 900000)` for a draw of
      `Math.random()`, as a decimal string. */
  function GenerateOtp(random: real): (otp: string)
    requires 0.0 <= random < 1.0
    ensures |otp| == 6 && Text.AllDigits(otp) && otp[0] != '0'
    ensures 100000 <= Text.ParseDecimal(otp) <= 999999
  {
    assert 0.0 <= random * 900000.0 < 900000.0;
    var n := (100000.0 + random * 900000.0).Floor;
    assert Text.Pow10(5) == 100000 && Text.Pow10(6) == 1000000;
    Text.DecimalStringLength(n, 6);
    Text.ParseDecimalString(n);
    Text.DecimalString(n)
  }

  const OTP_COOLDOWN_MS: int := 1 * MINUTE_MS
  const OTP_VALIDITY_MS: int := 10 * MINUTE_MS

  const USER_NOT_FOUND_MESSAGE: string := "User not found"
  const OTP_SUBJECT: string := "PayPing Email Verification"
  const OTP_SENT_MESSAGE: string := "OTP sent to email"
  const EMAIL_FAILED_MESSAGE: string := "Email could not be sent"
  const INVALID_OTP_MESSAGE: string := "Invalid or expired OTP"
  const VERIFIED_MESSAGE: string := "Email verified successfully"

  function OtpMessage(otp: string): string
  {
    "Your PayPing verification OTP is " + otp + ". It is valid for 10 minutes."
  }

  /** An OTP was sent less than a minute ago. */
  predicate InCooldown(u: User, now: Millis)
  {
    u.otpLastSentAt.Some? && now - u.otpLastSentAt.value < OTP_COOLDOWN_MS
  }

  /** `Math.ceil((OTP_COOLDOWN - elapsed) / 1000)`: the whole seconds still to wait. */
  function SecondsLeft(elapsed: int): (s: nat)
    requires elapsed < OTP_COOLDOWN_MS
    ensures (s - 1) * 1000 < OTP_COOLDOWN_MS - elapsed <= s * 1000
    ensures s >= 1 && (0 <= elapsed ==> s <= 60)
  {
    (OTP_COOLDOWN_MS - elapsed + 999) / 1000
  }

  function CooldownMessage(secondsLeft: nat): string
  {
    "Please wait " + Text.DecimalString(secondsLeft) + " seconds before requesting a new OTP"
  }

  /** The user after a fresh OTP is stored. */
  function WithOtp(u: User, otp: string, now: Millis): (v: User)
    ensures v.emailVerificationOTP == Some(otp) && v.emailVerificationOTPExpires == Some(now + OTP_VALIDITY_MS)
    ensures v.otpLastSentAt == Some(now)
    ensures v.(emailVerificationOTP := u.emailVerificationOTP, emailVerificationOTPExpires := u.emailVerificationOTPExpires,
               otpLastSentAt := u.otpLastSentAt) == u
  {
    u.(emailVerificationOTP := Some(otp), emailVerificationOTPExpires := Some(now + OTP_VALIDITY_MS), otpLastSentAt := Some(now))
  }

  /** The user after the mailer failed: the OTP is withdrawn, the send time is kept. */
  function WithdrawOtp(u: User): (v: User)
    ensures v.emailVerificationOTP.None? && v.emailVerificationOTPExpires.None? && v.otpLastSentAt == u.otpLastSentAt
    ensures v.(emailVerificationOTP := u.emailVerificationOTP, emailVerificationOTPExpires := u.emailVerificationOTPExpires) == u
  {
    u.(emailVerificationOTP := None, emailVerificationOTPExpires := None)
  }

  /** `sendOTP`: look the user up, enforce the cooldown, store the OTP,
      mail it, and withdraw it again when the mailer fails. */
  function SendOtpSpec(users: seq<User>, email: string, random: real, now: Millis,
                       deliver: (string, string, string) -> bool): UserRun<string>
    requires 0.0 <= random < 1.0
  {
    match FindByEmail(users, email)
    case None => UserRun(Err(HttpError(404, USER_NOT_FOUND_MESSAGE)), users)
    case Some(u) =>
      if InCooldown(u, now) then
        UserRun(Err(HttpError(429, CooldownMessage(SecondsLeft(now - u.otpLastSentAt.value)))), users)
      else
        var otp := GenerateOtp(random);
        var issued := WithOtp(u, otp, now);
        match SaveUser(users, issued)
        case Err(e) => UserRun(Err(e), users)
        case Ok(afterIssue) =>
          if deliver(u.email, OTP_SUBJECT, OtpMessage(otp)) then UserRun(Ok(OTP_SENT_MESSAGE), afterIssue)
          else match SaveUser(afterIssue, WithdrawOtp(issued))
            case Err(e) => UserRun(Err(e), afterIssue)
            case Ok(afterWithdraw) => UserRun(Err(HttpError(500, EMAIL_FAILED_MESSAGE)), afterWithdraw)
  }

  /** An unknown email gives 404 and changes nothing. */
  lemma SendOtpUnknownEmail(users: seq<User>, email: string, random: real, now: Millis,
                            deliver: (string, string, string) -> bool)
    requires 0.0 <= random < 1.0
    requires forall u :: u in users ==> u.email != Text.ToLower(email)
    ensures SendOtpSpec(users, email, random, now, deliver) == UserRun(Err(HttpError(404, USER_NOT_FOUND_MESSAGE)), users)
  {
  }

  /** Within a minute of the last send the request is refused with 429,
      naming a wait of 1 to 60 seconds, and nothing changes. */
  lemma SendOtpCooldown(users: seq<User>, u: User, email: string, random: real, now: Millis,
                        deliver: (string, string, string) -> bool)
    requires 0.0 <= random < 1.0
    requires UsersValid(users) && u in users && u.email == Text.ToLower(email)
    requires u.otpLastSentAt.Some? && 0 <= now - u.otpLastSentAt.value < OTP_COOLDOWN_MS
    ensures SendOtpSpec(users, email, random, now, deliver)
         == UserRun(Err(HttpError(429, CooldownMessage(SecondsLeft(now - u.otpLastSentAt.value)))), users)
    ensures 1 <= SecondsLeft(now - u.otpLastSentAt.value) <= 60
  {
    FindByEmailUnique(users, u, email);
  }

  /** Out of cooldown, a delivered OTP is stored with a ten-minute expiry
      and the send time; only that user changes. */
  lemma SendOtpIssues(users: seq<User>, u: User, email: string, random: real, now: Millis,
                      deliver: (string, string, string) -> bool)
    requires 0.0 <= random < 1.0
    requires UsersValid(users) && u in users && u.email == Text.ToLower(email) && !InCooldown(u, now)
    requires deliver(u.email, OTP_SUBJECT, OtpMessage(GenerateOtp(random)))
    ensures SendOtpSpec(users, email, random, now, deliver)
         == UserRun(Ok(OTP_SENT_MESSAGE), Replaced(users, WithOtp(u, GenerateOtp(random), now)))
  {
    FindByEmailUnique(users, u, email);
    SaveKeepingKeys(users, u, WithOtp(u, GenerateOtp(random), now));
  }

  /** When the mailer fails the response is 500, the user holds no OTP, but
      the send time stays recorded. */
  lemma SendOtpMailFailure(users: seq<User>, u: User, email: string, random: real, now: Millis,
                           deliver: (string, string, string) -> bool)
    requires 0.0 <= random < 1.0
    requires UsersValid(users) && u in users && u.email == Text.ToLower(email) && !InCooldown(u, now)
    requires !deliver(u.email, OTP_SUBJECT, OtpMessage(GenerateOtp(random)))
    ensures SendOtpSpec(users, email, random, now, deliver)
         == UserRun(Err(HttpError(500, EMAIL_FAILED_MESSAGE)), Replaced(users, WithdrawOtp(WithOtp(u, GenerateOtp(random), now))))
    ensures UsersValid(Replaced(users, WithdrawOtp(WithOtp(u, GenerateOtp(random), now))))
  {
    var issued := WithOtp(u, GenerateOtp(random), now);
    FindByEmailUnique(users, u, email);
    SaveKeepingKeys(users, u, issued);
    var afterIssue := Replaced(users, issued);
    ReplacedHolds(users, u, issued);
    SaveKeepingKeys(afterIssue, issued, WithdrawOtp(issued));
    ReplacedTwice(users, issued, WithdrawOtp(issued));
  }

  /** Whether the mail went out or not, an OTP request that passed the
      cooldown check starts a new cooldown: asking again within the minute
      gives 429. */
  lemma ResendWithinMinuteRefused(users: seq<User>, u: User, email: string, random: real, now: Millis,
                                  deliver: (string, string, string) -> bool,
                                  random2: real, later: Millis, deliver2: (string, string, string) -> bool)
    requires 0.0 <= random < 1.0 && 0.0 <= random2 < 1.0
    requires UsersValid(users) && u in users && u.email == Text.ToLower(email) && !InCooldown(u, now)
    requires now <= later < now + OTP_COOLDOWN_MS
    ensures SendOtpSpec(SendOtpSpec(users, email, random, now, deliver).users, email, random2, later, deliver2).result
         == Err(HttpError(429, CooldownMessage(SecondsLeft(later - now))))
  {
    var v := SentUser(u, random, now, deliver);
    SentUserStored(users, u, email, random, now, deliver);
    SendOtpCooldown(SendOtpSpec(users, email, random, now, deliver).users, v, email, random2, later, deliver2);
  }

  /** The user as a send that passed the cooldown check leaves it. */
  function SentUser(u: User, random: real, now: Millis, deliver: (string, string, string) -> bool): (v: User)
    requires 0.0 <= random < 1.0
    ensures v.id == u.id && v.email == u.email && v.otpLastSentAt == Some(now)
  {
    var issued := WithOtp(u, GenerateOtp(random), now);
    if deliver(u.email, OTP_SUBJECT, OtpMessage(GenerateOtp(random))) then issued else WithdrawOtp(issued)
  }

  /** That user is in the valid store the send leaves. */
  lemma SentUserStored(users: seq<User>, u: User, email: string, random: real, now: Millis,
                       deliver: (string, string, string) -> bool)
    requires 0.0 <= random < 1.0
    requires UsersValid(users) && u in users && u.email == Text.ToLower(email) && !InCooldown(u, now)
    ensures UsersValid(SendOtpSpec(users, email, random, now, deliver).users)
    ensures SentUser(u, random, now, deliver) in SendOtpSpec(users, email, random, now, deliver).users
  {
    var issued := WithOtp(u, GenerateOtp(random), now);
    var v := SentUser(u, random, now, deliver);
    var after := SendOtpSpec(users, email, random, now, deliver).users;
    if deliver(u.email, OTP_SUBJECT, OtpMessage(GenerateOtp(random))) {
      SendOtpIssues(users, u, email, random, now, deliver);
      SaveKeepingKeys(users, u, issued);
    } else {
      SendOtpMailFailure(users, u, email, random, now, deliver);
    }
    assert after == Replaced(users, v);
    var j :| 0 <= j < |users| && users[j] == u;
    assert after[j] == v;
  }

  predicate OtpMatches(u: User, email: string, otp: string, now: Millis)
  {
    && u.email == Text.ToLower(email)
    && u.emailVerificationOTP == Some(otp)
    && u.emailVerificationOTPExpires.Some? && u.emailVerificationOTPExpires.value > now
  }

  /** The user after a successful verification. */
  function Verified(u: User): (v: User)
    ensures v.isVerified && v.emailVerificationOTP.None? && v.emailVerificationOTPExpires.None?
    ensures v.(isVerified := u.isVerified, emailVerificationOTP := u.emailVerificationOTP,
               emailVerificationOTPExpires := u.emailVerificationOTPExpires) == u
  {
    u.(isVerified := true, emailVerificationOTP := None, emailVerificationOTPExpires := None)
  }

  /** `verifyOTP`: the user with this email, this OTP and an expiry after
      `now` becomes verified and loses the OTP. */
  function VerifyOtpSpec(users: seq<User>, email: string, otp: string, now: Millis): UserRun<string>
  {
    match Find(users, (u: User) => OtpMatches(u, email, otp, now))
    case None => UserRun(Err(HttpError(400, INVALID_OTP_MESSAGE)), users)
    case Some(u) =>
      match SaveUser(users, Verified(u))
      case Err(e) => UserRun(Err(e), users)
      case Ok(saved) => UserRun(Ok(VERIFIED_MESSAGE), saved)
  }

  /** Verification succeeds exactly when some user holds this email, this
      OTP and an unexpired expiry; then only that user changes, to
      `Verified`. Otherwise the answer is 400 and nothing changes. */
  lemma VerifyOtpIff(users: seq<User>, email: string, otp: string, now: Millis)
    requires UsersValid(users)
    ensures VerifyOtpSpec(users, email, otp, now).result.Ok? <==> exists u :: u in users && OtpMatches(u, email, otp, now)
    ensures forall u :: u in users && OtpMatches(u, email, otp, now) ==>
      VerifyOtpSpec(users, email, otp, now) == UserRun(Ok(VERIFIED_MESSAGE), Replaced(users, Verified(u)))
    ensures VerifyOtpSpec(users, email, otp, now).result.Err? ==>
      VerifyOtpSpec(users, email, otp, now) == UserRun(Err(HttpError(400, INVALID_OTP_MESSAGE)), users)
  {
    match Find(users, (u: User) => OtpMatches(u, email, otp, now))
    case None =>
    case Some(g) =>
      SaveKeepingKeys(users, g, Verified(g));
      forall u | u in users && OtpMatches(u, email, otp, now)
        ensures u == g
      {
        FindByEmailUnique(users, u, email);
        FindByEmailUnique(users, g, email);
      }
  }

  /** An OTP works once: after a successful verification the same OTP is
      refused at any time. */
  lemma OtpSingleUse(users: seq<User>, email: string, otp: string, now: Millis, later: Millis)
    requires UsersValid(users)
    requires VerifyOtpSpec(users, email, otp, now).result.Ok?
    ensures VerifyOtpSpec(VerifyOtpSpec(users, email, otp, now).users, email, otp, later).result
         == Err(HttpError(400, INVALID_OTP_MESSAGE))
  {
    VerifyOtpIff(users, email, otp, now);
    var u :| u in users && OtpMatches(u, email, otp, now);
    NoOtpAfterVerify(users, u, email, otp, later);
  }

  /** Once the holder of `email` is verified, nobody holds an OTP for it. */
  lemma NoOtpAfterVerify(users: seq<User>, u: User, email: string, otp: string, later: Millis)
    requires UsersValid(users) && u in users && u.email == Text.ToLower(email)
    ensures forall w :: w in Replaced(users, Verified(u)) ==> !OtpMatches(w, email, otp, later)
  {
    var after := Replaced(users, Verified(u));
    var j :| 0 <= j < |users| && users[j] == u;
    forall w | w in after
      ensures !OtpMatches(w, email, otp, later)
    {
      var i :| 0 <= i < |after| && after[i] == w;
      if users[i].id != u.id {
        assert i != j;
        assert users[i].email != users[j].email;
      }
    }
  }

  // ------------------------------------------------------------ register

  const USER_EXISTS_MESSAGE: string := "User with this email already exists"
  const INVALID_CREDENTIALS_MESSAGE: string := "Invalid email or password"

  /** The user fields the register and login responses expose. */
  datatype PublicUser = PublicUser(id: ObjectId, name: string, email: string, isVerified: bool)

  datatype Session = Session(user: PublicUser, token: string)

  function PublicView(u: User): (p: PublicUser)
    ensures p.id == u.id && p.name == u.name && p.email == u.email && p.isVerified == u.isVerified
  {
    PublicUser(u.id, u.name, u.email, u.isVerified)
  }

  /** The document `register` creates: the hashed password and freshly
      generated keys. */
  function Registered(id: ObjectId, name: string, email: string, password: string, hash: string -> string,
                      apiRandom: seq<Keys.Byte>, secretRandom: seq<Keys.Byte>, now: Millis): User
    requires |apiRandom| == 16 && |secretRandom| == 32
  {
    NewUser(id, name, email, hash(password), Keys.GenerateApiKey(apiRandom), Keys.GenerateWebhookSecret(secretRandom), now)
  }

  /** `register`: refuse a known email, otherwise create the user (the unique
      indexes may still refuse a key) and sign a token for it. */
  function RegisterSpec(users: seq<User>, nextId: ObjectId, name: string, email: string, password: string,
                        hash: string -> string, apiRandom: seq<Keys.Byte>, secretRandom: seq<Keys.Byte>,
                        sign: (ObjectId, string) -> string, now: Millis): UserRun<Session>
    requires |apiRandom| == 16 && |secretRandom| == 32
  {
    if FindByEmail(users, email).Some? then UserRun(Err(HttpError(400, USER_EXISTS_MESSAGE)), users)
    else
      var u := Registered(nextId, name, email, password, hash, apiRandom, secretRandom, now);
      if ClashesWithOther(users, u) then UserRun(Err(DuplicateKey), users)
      else UserRun(Ok(Session(PublicView(u), sign(u.id, u.email))), users + [u])
  }

  /** Registration succeeds exactly when no user has the email (in any
      case of its ASCII letters) and neither generated key is taken; it then
      appends one unverified user and returns its public view. A known email
      gives 400 and changes nothing. */
  lemma RegisterIff(users: seq<User>, nextId: ObjectId, name: string, email: string, password: string,
                    hash: string -> string, apiRandom: seq<Keys.Byte>, secretRandom: seq<Keys.Byte>,
                    sign: (ObjectId, string) -> string, now: Millis)
    requires |apiRandom| == 16 && |secretRandom| == 32
    requires forall u :: u in users ==> u.id != nextId
    ensures RegisterSpec(users, nextId, name, email, password, hash, apiRandom, secretRandom, sign, now).result.Ok?
        <==> forall u :: u in users ==>
               && u.email != Text.ToLower(email)
               && u.apiKey != Some(Keys.GenerateApiKey(apiRandom))
               && u.webhookSecret != Some(Keys.GenerateWebhookSecret(secretRandom))
    ensures (exists u :: u in users && u.email == Text.ToLower(email)) ==>
      RegisterSpec(users, nextId, name, email, password, hash, apiRandom, secretRandom, sign, now)
        == UserRun(Err(HttpError(400, USER_EXISTS_MESSAGE)), users)
    ensures var run := RegisterSpec(users, nextId, name, email, password, hash, apiRandom, secretRandom, sign, now);
      run.result.Ok? ==>
        && run.users == users + [Registered(nextId, name, email, password, hash, apiRandom, secretRandom, now)]
        && run.result.value.user == PublicUser(nextId, name, Text.ToLower(email), false)
  {
    var n := Registered(nextId, name, email, password, hash, apiRandom, secretRandom, now);
    assert n.apiKey.Some? && n.webhookSecret.Some?;
    if ClashesWithOther(users, n) {
      var i :| 0 <= i < |users| && users[i].id != n.id && (Clash(users[i], n) || Clash(n, users[i]));
      assert users[i] in users;
    }
  }

  /** `login`: both failures give the same 401, so the response does not
      reveal whether the email is registered. */
  function Login(users: seq<User>, email: string, password: string, compare: (string, string) -> bool,
                 sign: (ObjectId, string) -> string): (r: Result<Session>)
    ensures r.Err? ==> r.error == HttpError(401, INVALID_CREDENTIALS_MESSAGE)
    ensures r.Ok? <==> exists u :: (FindByEmail(users, email) == Some(u) && compare(password, u.passwordHash))
    ensures r.Ok? ==> r.value.user.email == Text.ToLower(email) && r.value.token == sign(r.value.user.id, r.value.user.email)
  {
    match FindByEmail(users, email)
    case None => Err(HttpError(401, INVALID_CREDENTIALS_MESSAGE))
    case Some(u) =>
      if !compare(password, u.passwordHash) then Err(HttpError(401, INVALID_CREDENTIALS_MESSAGE))
      else Ok(Session(PublicView(u), sign(u.id, u.email)))
  }

  /** A user just registered can log in with the same password (given a
      hash that `compare` accepts) and receives the same session. */
  lemma LoginAfterRegister(users: seq<User>, nextId: ObjectId, name: string, email: string, password: string,
                           hash: string -> string, compare: (string, string) -> bool,
                           apiRandom: seq<Keys.Byte>, secretRandom: seq<Keys.Byte>,
                           sign: (ObjectId, string) -> string, now: Millis)
    requires |apiRandom| == 16 && |secretRandom| == 32
    requires compare(password, hash(password))
    requires RegisterSpec(users, nextId, name, email, password, hash, apiRandom, secretRandom, sign, now).result.Ok?
    ensures Login(RegisterSpec(users, nextId, name, email, password, hash, apiRandom, secretRandom, sign, now).users,
                  email, password, compare, sign)
         == RegisterSpec(users, nextId, name, email, password, hash, apiRandom, secretRandom, sign, now).result
  {
    var n := Registered(nextId, name, email, password, hash, apiRandom, secretRandom, now);
    var g := FindByEmail(users + [n], email);
    assert n in users + [n];
    assert g.value == n by {
      assert g.value in users + [n];
      assert g.value !in users;
    }
  }

  // -------------------------------------------------------------- store

  /** `sendOTP` against the users collection. */
  method SendOtp(store: UserCollection, email: string, random: real, now: Millis,
                 deliver: (string, string, string) -> bool) returns (r: Result<string>)
    requires store.Valid() && 0.0 <= random < 1.0
    modifies store
    ensures store.Valid() && store.nextId == old(store.nextId)
    ensures UserRun(r, store.users) == SendOtpSpec(old(store.users), email, random, now, deliver)
  {
    var found := FindByEmail(store.users, email);
    if found.None? {
      return Err(HttpError(404, USER_NOT_FOUND_MESSAGE));
    }
    var u := found.value;
    if InCooldown(u, now) {
      return Err(HttpError(429, CooldownMessage(SecondsLeft(now - u.otpLastSentAt.value))));
    }
    var otp := GenerateOtp(random);
    var issued := WithOtp(u, otp, now);
    var saved := store.Save(issued);
    if saved.Err? {
      return Err(saved.error);
    }
    if deliver(u.email, OTP_SUBJECT, OtpMessage(otp)) {
      return Ok(OTP_SENT_MESSAGE);
    }
    saved := store.Save(WithdrawOtp(issued));
    if saved.Err? {
      return Err(saved.error);
    }
    return Err(HttpError(500, EMAIL_FAILED_MESSAGE));
  }

  /** `verifyOTP` against the users collection. */
  method VerifyOtp(store: UserCollection, email: string, otp: string, now: Millis) returns (r: Result<string>)
    requires store.Valid()
    modifies store
    ensures store.Valid() && store.nextId == old(store.nextId)
    ensures UserRun(r, store.users) == VerifyOtpSpec(old(store.users), email, otp, now)
  {
    var found := Find(store.users, (u: User) => OtpMatches(u, email, otp, now));
    if found.None? {
      return Err(HttpError(400, INVALID_OTP_MESSAGE));
    }
    var saved := store.Save(Verified(found.value));
    if saved.Err? {
      return Err(saved.error);
    }
    return Ok(VERIFIED_MESSAGE);
  }

  /** `register` against the users collection. */
  method Register(store: UserCollection, name: string, email: string, password: string,
                  hash: string -> string, apiRandom: seq<Keys.Byte>, secretRandom: seq<Keys.Byte>,
                  sign: (ObjectId, string) -> string, now: Millis) returns (r: Result<Session>)
    requires store.Valid() && |apiRandom| == 16 && |secretRandom| == 32
    modifies store
    ensures store.Valid()
    ensures UserRun(r, store.users)
         == RegisterSpec(old(store.users), old(store.nextId), name, email, password, hash, apiRandom, secretRandom, sign, now)
  {
    if FindByEmail(store.users, email).Some? {
      return Err(HttpError(400, USER_EXISTS_MESSAGE));
    }
    var created := store.Create(name, email, hash(password), Keys.GenerateApiKey(apiRandom),
                                Keys.GenerateWebhookSecret(secretRandom), now);
    if created.Err? {
      return Err(created.error);
    }
    var u := created.value;
    return Ok(Session(PublicView(u), sign(u.id, u.email)));
  }
}
