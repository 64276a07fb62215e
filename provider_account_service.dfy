/** The provider account service (backend/services/providerAccountService.js).
    Each operation is a pure function from the stored accounts to its result
    and the new stored accounts; the methods perform the same store calls in
    the same order on an `AccountCollection` and are proved against them. */
module ProviderAccountService {

  import opened Base
  import opened ProviderAccountModel
  import PaymentProviderModel

  /** What an operation returns together with the accounts it leaves stored. */
  datatype Outcome<T> = Outcome(result: Result<T>, accounts: seq<UserProviderAccount>)

  const DUPLICATE_PROVIDER_MESSAGE: string := "You already have an account with this provider"
  const NOT_FOUND_MESSAGE: string := "Account not found"
  const LAST_DEFAULT_MESSAGE: string := "You must have at least one default provider account"

  /** The fields of the request body that reach `findOneAndUpdate`. The
      validation middleware checks the body but passes the body itself on, so
      `user` and `provider`, which the update schema does not list, are
      applied when the client sends them. */
  datatype AccountUpdate = AccountUpdate(
    user: Option<ObjectId>,
    provider: Option<ObjectId>,
    merchantId: Option<string>,
    vpa: Option<string>,
    isDefault: Option<bool>)

  /** The document after `$set` of every field present in the update. */
  function ApplyUpdate(a: UserProviderAccount, u: AccountUpdate): (r: UserProviderAccount)
    ensures r.id == a.id
    ensures r.user == (if u.user.Some? then u.user.value else a.user)
    ensures r.provider == (if u.provider.Some? then u.provider.value else a.provider)
    ensures r.merchantId == (if u.merchantId.Some? then u.merchantId.value else a.merchantId)
    ensures r.vpa == (if u.vpa.Some? then u.vpa.value else a.vpa)
    ensures r.isDefault == (if u.isDefault.Some? then u.isDefault.value else a.isDefault)
  {
    a.(user := if u.user.Some? then u.user.value else a.user,
       provider := if u.provider.Some? then u.provider.value else a.provider,
       merchantId := if u.merchantId.Some? then u.merchantId.value else a.merchantId,
       vpa := if u.vpa.Some? then u.vpa.value else a.vpa,
       isDefault := if u.isDefault.Some? then u.isDefault.value else a.isDefault)
  }

  // ---------------------------------------------------------------- create

  /** `createAccount(userId, { provider, merchantId, vpa, isDefault })`; `id`
      is the id the store gives the new document. The first account of a user
      is default whatever was asked; a default account first clears the
      user's other defaults. */
  function CreateAccountSpec(accounts: seq<UserProviderAccount>, id: ObjectId, user: ObjectId, provider: ObjectId,
                             merchantId: string, vpa: string, isDefault: Option<bool>): Outcome<UserProviderAccount>
  {
    if FindByProvider(accounts, user, provider).Some? then
      Outcome(Err(HttpError(400, DUPLICATE_PROVIDER_MESSAGE)), accounts)
    else
      var shouldBeDefault := CountForUser(accounts, user) == 0 || isDefault == Some(true);
      var cleared := if shouldBeDefault then ClearDefaults(accounts, user, None) else accounts;
      var a := UserProviderAccount(id, user, provider, merchantId, vpa, shouldBeDefault);
      match InsertAccount(cleared, a)
      case Ok(s) => Outcome(Ok(a), s)
      case Err(e) => Outcome(Err(e), cleared)
  }

  /** A second account for the same (user, provider) is refused with 400 and
      nothing changes. */
  lemma CreateRejectsSameProvider(accounts: seq<UserProviderAccount>, id: ObjectId, user: ObjectId, provider: ObjectId,
                                  merchantId: string, vpa: string, isDefault: Option<bool>, existing: UserProviderAccount)
    requires existing in accounts && existing.user == user && existing.provider == provider
    ensures CreateAccountSpec(accounts, id, user, provider, merchantId, vpa, isDefault)
         == Outcome(Err(HttpError(400, DUPLICATE_PROVIDER_MESSAGE)), accounts)
  {
  }

  /** On a valid table with fresh ids, a create that passes the duplicate
      check never trips a unique index: it succeeds exactly when the required
      strings are present, and the table stays valid. */
  lemma CreateSucceeds(accounts: seq<UserProviderAccount>, id: ObjectId, user: ObjectId, provider: ObjectId,
                       merchantId: string, vpa: string, isDefault: Option<bool>)
    requires AccountsValid(accounts) && forall i :: 0 <= i < |accounts| ==> accounts[i].id < id
    requires FindByProvider(accounts, user, provider).None?
    ensures var o := CreateAccountSpec(accounts, id, user, provider, merchantId, vpa, isDefault);
      (o.result.Ok? <==> merchantId != "" && vpa != "") && AccountsValid(o.accounts)
  {
    var shouldBeDefault := CountForUser(accounts, user) == 0 || isDefault == Some(true);
    var cleared := if shouldBeDefault then ClearDefaults(accounts, user, None) else accounts;
    var a := UserProviderAccount(id, user, provider, merchantId, vpa, shouldBeDefault);
    ClearDefaultsKeepsValid(accounts, user, None);
    assert !ClashesWithOther(cleared, a) by {
      forall i | 0 <= i < |cleared| && cleared[i].id != a.id
        ensures !IndexClash(cleared[i], a)
      {
        assert cleared[i].user == accounts[i].user && cleared[i].provider == accounts[i].provider;
        if cleared[i].user == user {
          assert accounts[i] in accounts;
        }
      }
    }
    InsertKeepsValid(cleared, a);
  }

  /** A user's first account is their default, whatever was requested. */
  lemma CreateFirstIsDefault(accounts: seq<UserProviderAccount>, id: ObjectId, user: ObjectId, provider: ObjectId,
                             merchantId: string, vpa: string, isDefault: Option<bool>)
    requires forall a :: a in accounts ==> a.user != user
    ensures var o := CreateAccountSpec(accounts, id, user, provider, merchantId, vpa, isDefault);
      o.result.Ok? ==> o.result.value.isDefault
  {
  }

  /** A new default account is the user's only default afterwards. */
  lemma CreateDefaultIsOnlyDefault(accounts: seq<UserProviderAccount>, id: ObjectId, user: ObjectId, provider: ObjectId,
                                   merchantId: string, vpa: string, isDefault: Option<bool>)
    ensures var o := CreateAccountSpec(accounts, id, user, provider, merchantId, vpa, isDefault);
      o.result.Ok? && o.result.value.isDefault ==>
        |o.accounts| == |accounts| + 1 &&
        o.accounts[|accounts|] == o.result.value &&
        forall i :: 0 <= i < |accounts| && o.accounts[i].user == user ==> !o.accounts[i].isDefault
  {
  }

  /** A create that is not default leaves every existing account as it was. */
  lemma CreateNonDefaultAppends(accounts: seq<UserProviderAccount>, id: ObjectId, user: ObjectId, provider: ObjectId,
                                merchantId: string, vpa: string, isDefault: Option<bool>)
    ensures var o := CreateAccountSpec(accounts, id, user, provider, merchantId, vpa, isDefault);
      o.result.Ok? && !o.result.value.isDefault ==> o.accounts == accounts + [o.result.value]
  {
  }

  method CreateAccount(store: AccountCollection, user: ObjectId, provider: ObjectId,
                       merchantId: string, vpa: string, isDefault: Option<bool>) returns (r: Result<UserProviderAccount>)
    requires store.Valid()
    modifies store
    ensures store.Valid()
    ensures Outcome(r, store.accounts)
         == CreateAccountSpec(old(store.accounts), old(store.nextId), user, provider, merchantId, vpa, isDefault)
  {
    var existing := FindByProvider(store.accounts, user, provider);
    if existing.Some? {
      return Err(HttpError(400, DUPLICATE_PROVIDER_MESSAGE));
    }
    var totalAccounts := CountForUser(store.accounts, user);
    var shouldBeDefault := totalAccounts == 0 || isDefault == Some(true);
    if shouldBeDefault {
      store.UpdateManyClearDefault(user, None);
    }
    r := store.Create(user, provider, merchantId, vpa, shouldBeDefault);
  }

  // ------------------------------------------------------------------ read

  /** `getAccounts(userId)`: the user's accounts, each with its provider. */
  function GetAccounts(accounts: seq<UserProviderAccount>, providers: seq<PaymentProviderModel.PaymentProvider>, user: ObjectId)
    : (r: seq<(UserProviderAccount, Option<PaymentProviderModel.PaymentProvider>)>)
    ensures |r| == CountForUser(accounts, user)
    ensures forall k :: 0 <= k < |r| ==>
      && r[k].0 in accounts && r[k].0.user == user
      && r[k].1 == PaymentProviderModel.FindProvider(providers, r[k].0.provider)
    ensures forall a :: a in accounts && a.user == user ==> exists k :: 0 <= k < |r| && r[k].0 == a
  {
    var mine := Filter(accounts, (a: UserProviderAccount) => a.user == user);
    CountIsFilterLength(accounts, (a: UserProviderAccount) => a.user == user);
    var r := WithProviders(mine, providers);
    forall a | a in accounts && a.user == user
      ensures exists k :: 0 <= k < |r| && r[k].0 == a
    {
      assert a in mine;
      var k :| 0 <= k < |mine| && mine[k] == a;
      assert r[k].0 == a;
    }
    r
  }

  /** Each account paired with its populated provider. */
  function WithProviders(mine: seq<UserProviderAccount>, providers: seq<PaymentProviderModel.PaymentProvider>)
    : (r: seq<(UserProviderAccount, Option<PaymentProviderModel.PaymentProvider>)>)
    ensures |r| == |mine|
    ensures forall k :: 0 <= k < |r| ==> r[k] == (mine[k], PaymentProviderModel.FindProvider(providers, mine[k].provider))
  {
    seq(|mine|, k requires 0 <= k < |mine| => (mine[k], PaymentProviderModel.FindProvider(providers, mine[k].provider)))
  }

  /** `getAccountById(userId, accountId)`: found only under both the id and the user. */
  function GetAccountById(accounts: seq<UserProviderAccount>, providers: seq<PaymentProviderModel.PaymentProvider>,
                          user: ObjectId, id: ObjectId): (r: Result<(UserProviderAccount, Option<PaymentProviderModel.PaymentProvider>)>)
    ensures r.Ok? ==> r.value.0 in accounts && r.value.0.id == id && r.value.0.user == user
    ensures r.Ok? ==> r.value.1 == PaymentProviderModel.FindProvider(providers, r.value.0.provider)
    ensures r.Err? <==> forall a :: a in accounts ==> !(a.id == id && a.user == user)
    ensures r.Err? ==> r.error == HttpError(404, NOT_FOUND_MESSAGE)
  {
    match IndexOfOwned(accounts, id, user)
    case None => Err(HttpError(404, NOT_FOUND_MESSAGE))
    case Some(i) => Ok((accounts[i], PaymentProviderModel.FindProvider(providers, accounts[i].provider)))
  }

  // ---------------------------------------------------------------- update

  /** `updateAccount(userId, accountId, updateData)` as written. */
  function UpdateAccountSpec(accounts: seq<UserProviderAccount>, user: ObjectId, id: ObjectId, u: AccountUpdate)
    : Outcome<UserProviderAccount>
  {
    if u.isDefault == Some(false) && CountForUser(accounts, user) <= 1 then
      Outcome(Err(HttpError(400, LAST_DEFAULT_MESSAGE)), accounts)
    else
      var cleared := if u.isDefault == Some(true) then ClearDefaults(accounts, user, Some(id)) else accounts;
      match IndexOfOwned(cleared, id, user)
      case None => Outcome(Err(HttpError(404, NOT_FOUND_MESSAGE)), cleared)
      case Some(i) =>
        var a := ApplyUpdate(cleared[i], u);
        match ReplaceAccount(cleared, i, a)
        case Ok(s) => Outcome(Ok(a), s)
        case Err(e) => Outcome(Err(e), cleared)
  }

  /** Clearing defaults changes no id and no owner, so lookups by (id, user)
      find the same position before and after. */
  lemma ClearDefaultsKeepsOwned(accounts: seq<UserProviderAccount>, user: ObjectId, except: Option<ObjectId>, id: ObjectId, owner: ObjectId)
    ensures IndexOfOwned(ClearDefaults(accounts, user, except), id, owner) == IndexOfOwned(accounts, id, owner)
  {
    var c := ClearDefaults(accounts, user, except);
    var p := (a: UserProviderAccount) => a.id == id && a.user == owner;
    forall i | 0 <= i < |accounts|
      ensures p(c[i]) == p(accounts[i])
    {
    }
    FirstIndexAgree(accounts, c, p);
  }

  lemma {:induction false} FirstIndexAgree<T>(s: seq<T>, t: seq<T>, p: T -> bool)
    requires |s| == |t| && forall i :: 0 <= i < |s| ==> p(t[i]) == p(s[i])
    ensures FirstIndex(t, p) == FirstIndex(s, p)
  {
    if |s| > 0 && !p(s[0]) {
      FirstIndexAgree(s[1..], t[1..], p);
    }
  }

  /** Un-defaulting when the user has at most one account is refused with 400
      and nothing changes. */
  lemma UpdateKeepsLastAccountDefault(accounts: seq<UserProviderAccount>, user: ObjectId, id: ObjectId, u: AccountUpdate)
    requires u.isDefault == Some(false) && CountForUser(accounts, user) <= 1
    ensures UpdateAccountSpec(accounts, user, id, u) == Outcome(Err(HttpError(400, LAST_DEFAULT_MESSAGE)), accounts)
  {
  }

  /** Setting a default clears every other default of the user before the
      lookup: afterwards no other account of the user is default, whether the
      update then succeeds, fails validation or finds no account (404). */
  lemma UpdateSetDefaultClearsOthers(accounts: seq<UserProviderAccount>, user: ObjectId, id: ObjectId, u: AccountUpdate)
    requires u.isDefault == Some(true)
    ensures var o := UpdateAccountSpec(accounts, user, id, u);
      forall b :: b in o.accounts && b.user == user && b.id != id ==> !b.isDefault
  {
    var cleared := ClearDefaults(accounts, user, Some(id));
    var o := UpdateAccountSpec(accounts, user, id, u);
    forall b | b in o.accounts && b.user == user && b.id != id
      ensures !b.isDefault
    {
      var k :| 0 <= k < |o.accounts| && o.accounts[k] == b;
      match IndexOfOwned(cleared, id, user)
      case None =>
      case Some(i) =>
        if ReplaceAccount(cleared, i, ApplyUpdate(cleared[i], u)).Ok? {
          assert o.accounts[i].id == id;
          assert b == cleared[k];
        }
    }
  }

  /** An account not owned by the user is never changed and gives 404 (once
      the last-default check has passed). */
  lemma UpdateScopedToOwner(accounts: seq<UserProviderAccount>, user: ObjectId, id: ObjectId, u: AccountUpdate)
    requires forall a :: a in accounts ==> !(a.id == id && a.user == user)
    ensures UpdateAccountSpec(accounts, user, id, u).result.Err?
    ensures !(u.isDefault == Some(false) && CountForUser(accounts, user) <= 1) ==>
      UpdateAccountSpec(accounts, user, id, u).result == Err(HttpError(404, NOT_FOUND_MESSAGE))
  {
    ClearDefaultsKeepsOwned(accounts, user, Some(id), id, user);
  }

  /** The table stays valid (the unique indexes are enforced by the store). */
  lemma UpdateKeepsValid(accounts: seq<UserProviderAccount>, user: ObjectId, id: ObjectId, u: AccountUpdate)
    requires AccountsValid(accounts)
    ensures AccountsValid(UpdateAccountSpec(accounts, user, id, u).accounts)
  {
    var cleared := if u.isDefault == Some(true) then ClearDefaults(accounts, user, Some(id)) else accounts;
    ClearDefaultsKeepsValid(accounts, user, Some(id));
    match IndexOfOwned(cleared, id, user)
    case None =>
    case Some(i) => ReplaceKeepsValid(cleared, i, ApplyUpdate(cleared[i], u));
  }

  method UpdateAccount(store: AccountCollection, user: ObjectId, id: ObjectId, u: AccountUpdate)
    returns (r: Result<UserProviderAccount>)
    requires store.Valid()
    modifies store
    ensures store.Valid()
    ensures Outcome(r, store.accounts) == UpdateAccountSpec(old(store.accounts), user, id, u)
  {
    if u.isDefault == Some(false) {
      var totalAccounts := CountForUser(store.accounts, user);
      if totalAccounts <= 1 {
        return Err(HttpError(400, LAST_DEFAULT_MESSAGE));
      }
    }
    if u.isDefault == Some(true) {
      store.UpdateManyClearDefault(user, Some(id));
    }
    var found := IndexOfOwned(store.accounts, id, user);
    if found.None? {
      return Err(HttpError(404, NOT_FOUND_MESSAGE));
    }
    var i := found.value;
    r := store.Replace(i, ApplyUpdate(store.accounts[i], u));
  }

  /** Un-defaulting passes the count check as soon as the user has two
      accounts, even when the target is the only default: the user is then
      left with no default account, the state the refusal message forbids. */
  lemma UndefaultLeavesNoDefault()
    ensures var a := UserProviderAccount(0, 7, 1, "M1", "a@paytm", true);
      var b := UserProviderAccount(1, 7, 2, "M2", "b@paytm", false);
      var o := UpdateAccountSpec([a, b], 7, 0, AccountUpdate(None, None, None, None, Some(false)));
      AccountsValid([a, b]) && o.result.Ok? && FindDefault(o.accounts, 7).None?
  {
    var a := UserProviderAccount(0, 7, 1, "M1", "a@paytm", true);
    var b := UserProviderAccount(1, 7, 2, "M2", "b@paytm", false);
    var p := (x: UserProviderAccount) => x.user == 7;
    assert Count([a, b], p) == 2 by {
      assert [a, b][1..] == [b];
      assert [b][1..] == [];
    }
    var u := AccountUpdate(None, None, None, None, Some(false));
    assert IndexOfOwned([a, b], 0, 7) == Some(0);
    var a' := ApplyUpdate(a, u);
    assert a' == a.(isDefault := false);
    assert !ClashesWithOther([a, b], a') by {
      assert [a, b][0].id == a'.id && !IndexClash([a, b][1], a');
    }
    assert RequiredPresent(a') && [a, b][0 := a'] == [a', b];
    assert ReplaceAccount([a, b], 0, a') == Ok([a', b]);
    var o := UpdateAccountSpec([a, b], 7, 0, u);
    assert o.accounts == [a', b];
    assert !a'.isDefault && !b.isDefault;
  }

  /** Setting as default an id the user does not own reports 404, yet the
      user's existing default has already been cleared. */
  lemma SetDefaultOnUnknownIdClearsDefault()
    ensures var a := UserProviderAccount(0, 7, 1, "M1", "a@paytm", true);
      var o := UpdateAccountSpec([a], 7, 5, AccountUpdate(None, None, None, None, Some(true)));
      o.result == Err(HttpError(404, NOT_FOUND_MESSAGE)) && FindDefault(o.accounts, 7).None?
  {
    var a := UserProviderAccount(0, 7, 1, "M1", "a@paytm", true);
    var o := UpdateAccountSpec([a], 7, 5, AccountUpdate(None, None, None, None, Some(true)));
    assert ClearDefaults([a], 7, Some(5)) == [a.(isDefault := false)];
    assert o.accounts == [a.(isDefault := false)];
  }

  /** A `user` field in the body moves the account to another user. */
  lemma UpdateCanReassignOwner()
    ensures var a := UserProviderAccount(0, 7, 1, "M1", "a@paytm", true);
      var o := UpdateAccountSpec([a], 7, 0, AccountUpdate(Some(8), None, None, None, None));
      o.result.Ok? && o.result.value.user == 8
  {
    var a := UserProviderAccount(0, 7, 1, "M1", "a@paytm", true);
    assert ApplyUpdate(a, AccountUpdate(Some(8), None, None, None, None)) == a.(user := 8);
  }

  /** The update schema's fields, the only ones the corrected update applies. */
  datatype SchemaUpdate = SchemaUpdate(merchantId: Option<string>, vpa: Option<string>, isDefault: Option<bool>)

  function AsUpdate(u: SchemaUpdate): (r: AccountUpdate)
    ensures r.user.None? && r.provider.None?
  {
    AccountUpdate(None, None, u.merchantId, u.vpa, u.isDefault)
  }

  /** The update the refusal message describes: the account is looked up
      first, un-defaulting the user's default is refused, and the other
      defaults are cleared only together with a successful write. */
  function UpdateAccountCorrected(accounts: seq<UserProviderAccount>, user: ObjectId, id: ObjectId, u: SchemaUpdate)
    : Outcome<UserProviderAccount>
  {
    match IndexOfOwned(accounts, id, user)
    case None => Outcome(Err(HttpError(404, NOT_FOUND_MESSAGE)), accounts)
    case Some(i) =>
      if u.isDefault == Some(false) && (CountForUser(accounts, user) <= 1 || accounts[i].isDefault) then
        Outcome(Err(HttpError(400, LAST_DEFAULT_MESSAGE)), accounts)
      else
        var a := ApplyUpdate(accounts[i], AsUpdate(u));
        var cleared := if u.isDefault == Some(true) then ClearDefaults(accounts, user, Some(id)) else accounts;
        match ReplaceAccount(cleared, i, a)
        case Ok(s) => Outcome(Ok(a), s)
        case Err(e) => Outcome(Err(e), accounts)
  }

  /** The corrected update keeps the account with its owner and provider,
      changes nothing when it fails, and never takes away a user's default. */
  lemma CorrectedUpdateKeepsDefault(accounts: seq<UserProviderAccount>, user: ObjectId, id: ObjectId, u: SchemaUpdate)
    requires AccountsValid(accounts)
    ensures var o := UpdateAccountCorrected(accounts, user, id, u);
      && (o.result.Err? ==> o.accounts == accounts)
      && (o.result.Ok? ==>
            && o.result.value.user == user && o.result.value.id == id
            && exists a :: a in accounts && a.id == id && a.user == user && a.provider == o.result.value.provider)
      && (FindDefault(accounts, user).Some? ==> FindDefault(o.accounts, user).Some?)
      && AccountsValid(o.accounts)
  {
    var o := UpdateAccountCorrected(accounts, user, id, u);
    ClearDefaultsKeepsValid(accounts, user, Some(id));
    match IndexOfOwned(accounts, id, user)
    case None =>
    case Some(i) =>
      if !(u.isDefault == Some(false) && (CountForUser(accounts, user) <= 1 || accounts[i].isDefault)) {
        var a := ApplyUpdate(accounts[i], AsUpdate(u));
        var cleared := if u.isDefault == Some(true) then ClearDefaults(accounts, user, Some(id)) else accounts;
        assert cleared[i].id == accounts[i].id;
        ReplaceKeepsValid(cleared, i, a);
        if ReplaceAccount(cleared, i, a).Ok? {
          assert accounts[i] in accounts;
          var s := ReplaceAccount(cleared, i, a).value;
          if FindDefault(accounts, user).Some? {
            DefaultSurvives(accounts, user, i, a, s, u.isDefault == Some(true));
          }
        }
      }
  }

  /** Replacing the account at `i` by `a` keeps some default for `user`
      when `a` is itself a default, or when the other accounts are kept and
      `a` stays a default if the old one was. */
  lemma DefaultSurvives(accounts: seq<UserProviderAccount>, user: ObjectId, i: nat, a: UserProviderAccount,
                        s: seq<UserProviderAccount>, setsDefault: bool)
    requires i < |accounts| == |s| && s[i] == a && a.user == user && accounts[i].user == user
    requires setsDefault ==> a.isDefault
    requires !setsDefault ==> (forall j :: 0 <= j < |s| && j != i ==> s[j] == accounts[j])
                              && (accounts[i].isDefault ==> a.isDefault)
    requires FindDefault(accounts, user).Some?
    ensures FindDefault(s, user).Some?
  {
    if setsDefault {
      assert s[i] in s;
    } else {
      var d := FindDefault(accounts, user).value;
      var k :| 0 <= k < |accounts| && accounts[k] == d;
      assert s[k] in s;
    }
  }

  // ---------------------------------------------------------------- delete

  /** `deleteAccount(userId, accountId)`. No other account becomes default. */
  function DeleteAccountSpec(accounts: seq<UserProviderAccount>, user: ObjectId, id: ObjectId): (o: Outcome<string>)
    ensures o.result.Err? <==> forall a :: a in accounts ==> !(a.id == id && a.user == user)
    ensures o.result.Err? ==> o.result.error == HttpError(404, NOT_FOUND_MESSAGE) && o.accounts == accounts
    ensures o.result.Ok? ==> |o.accounts| == |accounts| - 1 && forall b :: b in o.accounts ==> b in accounts
  {
    match IndexOfOwned(accounts, id, user)
    case None => Outcome(Err(HttpError(404, NOT_FOUND_MESSAGE)), accounts)
    case Some(i) => Outcome(Ok("Account deleted successfully"), RemoveAccount(accounts, i))
  }

  /** On a valid table the deleted account is exactly the one with that id;
      every other document is kept as it was, `isDefault` included. */
  lemma DeleteRemovesOnlyTarget(accounts: seq<UserProviderAccount>, user: ObjectId, id: ObjectId)
    requires AccountsValid(accounts)
    ensures var o := DeleteAccountSpec(accounts, user, id);
      o.result.Ok? ==> forall b :: b in accounts ==> (b in o.accounts <==> b.id != id)
  {
    var o := DeleteAccountSpec(accounts, user, id);
    if o.result.Ok? {
      var i := IndexOfOwned(accounts, id, user).value;
      forall b | b in accounts
        ensures b in o.accounts <==> b.id != id
      {
        var k :| 0 <= k < |accounts| && accounts[k] == b;
        if b.id != id {
          assert k != i;
          var j := if k < i then k else k - 1;
          assert o.accounts[j] == b;
        }
      }
    }
  }

  method DeleteAccount(store: AccountCollection, user: ObjectId, id: ObjectId) returns (r: Result<string>)
    requires store.Valid()
    modifies store
    ensures store.Valid()
    ensures Outcome(r, store.accounts) == DeleteAccountSpec(old(store.accounts), user, id)
  {
    var found := IndexOfOwned(store.accounts, id, user);
    if found.None? {
      return Err(HttpError(404, NOT_FOUND_MESSAGE));
    }
    store.Remove(found.value);
    r := Ok("Account deleted successfully");
  }
}
