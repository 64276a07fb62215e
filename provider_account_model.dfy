/** A user's account with a payment provider and the accounts collection
    (backend/models/UserProviderAccount.js). The collection enforces the two
    unique indexes and the required fields, as the store does. */
module ProviderAccountModel {

  import opened Base

  /** An account document; `isDefault` is false unless set. */
  datatype UserProviderAccount = UserProviderAccount(
    id: ObjectId,
    user: ObjectId,
    provider: ObjectId,
    merchantId: string,
    vpa: string,
    isDefault: bool)

  /** Two distinct accounts the indexes refuse to hold together: the same
      (user, provider), or two defaults of one user. */
  predicate IndexClash(a: UserProviderAccount, b: UserProviderAccount)
  {
    a.user == b.user && (a.provider == b.provider || (a.isDefault && b.isDefault))
  }

  /** The required strings are non-empty. */
  predicate RequiredPresent(a: UserProviderAccount)
  {
    a.merchantId != "" && a.vpa != ""
  }

  /** The collection's invariants: distinct ids, required fields present,
      (user, provider) unique and at most one default account per user. */
  predicate AccountsValid(accounts: seq<UserProviderAccount>)
  {
    && (forall i :: 0 <= i < |accounts| ==> RequiredPresent(accounts[i]))
    && (forall i, j :: 0 <= i < j < |accounts| ==> accounts[i].id != accounts[j].id && !IndexClash(accounts[i], accounts[j]))
  }

  lemma AtMostOneDefault(accounts: seq<UserProviderAccount>, user: ObjectId, i: nat, j: nat)
    requires AccountsValid(accounts) && i < |accounts| && j < |accounts|
    requires accounts[i].user == user && accounts[j].user == user
    requires accounts[i].isDefault && accounts[j].isDefault
    ensures i == j
  {
    if i < j {
      assert IndexClash(accounts[i], accounts[j]);
    } else if j < i {
      assert IndexClash(accounts[j], accounts[i]);
    }
  }

  predicate ClashesWithOther(accounts: seq<UserProviderAccount>, a: UserProviderAccount)
  {
    exists i :: 0 <= i < |accounts| && accounts[i].id != a.id && IndexClash(accounts[i], a)
  }

  /** `countDocuments({ user })`. */
  function CountForUser(accounts: seq<UserProviderAccount>, user: ObjectId): (n: nat)
    ensures n == 0 <==> forall a :: a in accounts ==> a.user != user
  {
    Count(accounts, (a: UserProviderAccount) => a.user == user)
  }

  /** `findOne({ user, isDefault: true })`. */
  function FindDefault(accounts: seq<UserProviderAccount>, user: ObjectId): (r: Option<UserProviderAccount>)
    ensures r.Some? ==> r.value in accounts && r.value.user == user && r.value.isDefault
    ensures r.None? ==> forall a :: a in accounts && a.user == user ==> !a.isDefault
  {
    Find(accounts, (a: UserProviderAccount) => a.user == user && a.isDefault)
  }

  /** `findOne({ user, provider })`. */
  function FindByProvider(accounts: seq<UserProviderAccount>, user: ObjectId, provider: ObjectId): (r: Option<UserProviderAccount>)
    ensures r.Some? ==> r.value in accounts && r.value.user == user && r.value.provider == provider
    ensures r.None? ==> forall a :: a in accounts && a.user == user ==> a.provider != provider
  {
    Find(accounts, (a: UserProviderAccount) => a.user == user && a.provider == provider)
  }

  /** The position of the account with id `id` owned by `user`, as a
      `{ _id, user }` filter selects it. */
  function IndexOfOwned(accounts: seq<UserProviderAccount>, id: ObjectId, user: ObjectId): (r: Option<nat>)
    ensures r.Some? ==> r.value < |accounts| && accounts[r.value].id == id && accounts[r.value].user == user
    ensures r.None? ==> forall i :: 0 <= i < |accounts| ==> !(accounts[i].id == id && accounts[i].user == user)
  {
    FirstIndex(accounts, (a: UserProviderAccount) => a.id == id && a.user == user)
  }

  /** `updateMany({ user, _id: { $ne: except }, isDefault: true }, { isDefault: false })`;
      with `except` absent the `_id` condition is dropped. */
  function ClearDefaults(accounts: seq<UserProviderAccount>, user: ObjectId, except: Option<ObjectId>): (r: seq<UserProviderAccount>)
    ensures |r| == |accounts|
    ensures forall i :: 0 <= i < |accounts| ==>
      r[i] == if accounts[i].user == user && Some(accounts[i].id) != except then accounts[i].(isDefault := false) else accounts[i]
  {
    seq(|accounts|, i requires 0 <= i < |accounts| =>
      if accounts[i].user == user && Some(accounts[i].id) != except then accounts[i].(isDefault := false) else accounts[i])
  }

  lemma ClearDefaultsKeepsValid(accounts: seq<UserProviderAccount>, user: ObjectId, except: Option<ObjectId>)
    requires AccountsValid(accounts)
    ensures AccountsValid(ClearDefaults(accounts, user, except))
  {
    var r := ClearDefaults(accounts, user, except);
    forall i, j | 0 <= i < j < |r|
      ensures r[i].id != r[j].id && !IndexClash(r[i], r[j])
    {
      assert !IndexClash(accounts[i], accounts[j]);
    }
  }

  /** `UserProviderAccount.create(a)` on the stored sequence: refused by the
      required-field validator or by a unique index, otherwise appended. */
  function InsertAccount(accounts: seq<UserProviderAccount>, a: UserProviderAccount): (r: Result<seq<UserProviderAccount>>)
    ensures r.Ok? <==> RequiredPresent(a) && !ClashesWithOther(accounts, a)
    ensures r.Ok? ==> r.value == accounts + [a]
    ensures r.Err? && !RequiredPresent(a) ==> r.error.message == "ValidationError: required path missing"
    ensures r.Err? && RequiredPresent(a) ==> r.error == DuplicateKey
  {
    if !RequiredPresent(a) then Err(AppError(None, "ValidationError: required path missing"))
    else if ClashesWithOther(accounts, a) then Err(DuplicateKey)
    else Ok(accounts + [a])
  }

  /** Writing back the updated document at index `i`, as `findOneAndUpdate`
      with `runValidators` does: the same two refusals as on insert. */
  function ReplaceAccount(accounts: seq<UserProviderAccount>, i: nat, a: UserProviderAccount): (r: Result<seq<UserProviderAccount>>)
    requires i < |accounts|
    ensures r.Ok? <==> RequiredPresent(a) && !ClashesWithOther(accounts, a)
    ensures r.Ok? ==> |r.value| == |accounts| && r.value[i] == a
    ensures r.Ok? ==> forall j :: 0 <= j < |accounts| && j != i ==> r.value[j] == accounts[j]
    ensures r.Err? && RequiredPresent(a) ==> r.error == DuplicateKey
  {
    if !RequiredPresent(a) then Err(AppError(None, "ValidationError: required path missing"))
    else if ClashesWithOther(accounts, a) then Err(DuplicateKey)
    else Ok(accounts[i := a])
  }

  /** `findOneAndDelete` of the document at index `i`. */
  function RemoveAccount(accounts: seq<UserProviderAccount>, i: nat): (r: seq<UserProviderAccount>)
    requires i < |accounts|
    ensures |r| == |accounts| - 1
    ensures forall j :: 0 <= j < |r| ==> r[j] == accounts[if j < i then j else j + 1]
  {
    accounts[..i] + accounts[i + 1..]
  }

  lemma InsertKeepsValid(accounts: seq<UserProviderAccount>, a: UserProviderAccount)
    requires AccountsValid(accounts) && forall i :: 0 <= i < |accounts| ==> accounts[i].id < a.id
    ensures InsertAccount(accounts, a).Ok? ==> AccountsValid(InsertAccount(accounts, a).value)
  {
    if InsertAccount(accounts, a).Ok? {
      var s := accounts + [a];
      forall i, j | 0 <= i < j < |s|
        ensures s[i].id != s[j].id && !IndexClash(s[i], s[j])
      {
        if j == |accounts| {
          assert accounts[i].id < a.id;
          assert !IndexClash(accounts[i], a);
        }
      }
    }
  }

  lemma ReplaceKeepsValid(accounts: seq<UserProviderAccount>, i: nat, a: UserProviderAccount)
    requires AccountsValid(accounts) && i < |accounts| && a.id == accounts[i].id
    ensures ReplaceAccount(accounts, i, a).Ok? ==> AccountsValid(ReplaceAccount(accounts, i, a).value)
  {
    if ReplaceAccount(accounts, i, a).Ok? {
      var s := accounts[i := a];
      forall p, q | 0 <= p < q < |s|
        ensures s[p].id != s[q].id && !IndexClash(s[p], s[q])
      {
        if p == i {
          assert accounts[q].id != a.id && !IndexClash(accounts[q], a);
          assert IndexClash(a, accounts[q]) == IndexClash(accounts[q], a);
        } else if q == i {
          assert accounts[p].id != a.id && !IndexClash(accounts[p], a);
        }
      }
    }
  }

  lemma RemoveKeepsValid(accounts: seq<UserProviderAccount>, i: nat)
    requires AccountsValid(accounts) && i < |accounts|
    ensures AccountsValid(RemoveAccount(accounts, i))
  {
    var s := RemoveAccount(accounts, i);
    forall p, q | 0 <= p < q < |s|
      ensures s[p].id != s[q].id && !IndexClash(s[p], s[q])
    {
      var p', q' := if p < i then p else p + 1, if q < i then q else q + 1;
      assert s[p] == accounts[p'] && s[q] == accounts[q'];
    }
  }

  /** The accounts collection. */
  class AccountCollection {
    var accounts: seq<UserProviderAccount>
    var nextId: ObjectId

    ghost predicate Valid()
      reads this
    {
      AccountsValid(accounts) && forall i :: 0 <= i < |accounts| ==> accounts[i].id < nextId
    }

    constructor ()
      ensures Valid() && accounts == []
    {
      accounts := [];
      nextId := 0;
    }

    /** `updateMany` clearing the user's defaults, see `ClearDefaults`. */
    method UpdateManyClearDefault(user: ObjectId, except: Option<ObjectId>)
      requires Valid()
      modifies this
      ensures Valid() && nextId == old(nextId)
      ensures accounts == ClearDefaults(old(accounts), user, except)
    {
      ClearDefaultsKeepsValid(accounts, user, except);
      accounts := ClearDefaults(accounts, user, except);
    }

    /** `create(...)` with a fresh id. */
    method Create(user: ObjectId, provider: ObjectId, merchantId: string, vpa: string, isDefault: bool)
      returns (r: Result<UserProviderAccount>)
      requires Valid()
      modifies this
      ensures Valid()
      ensures var a := UserProviderAccount(old(nextId), user, provider, merchantId, vpa, isDefault);
        match InsertAccount(old(accounts), a)
        case Ok(s) => r == Ok(a) && accounts == s
        case Err(e) => r == Err(e) && accounts == old(accounts)
    {
      var a := UserProviderAccount(nextId, user, provider, merchantId, vpa, isDefault);
      InsertKeepsValid(accounts, a);
      match InsertAccount(accounts, a)
      case Ok(s) =>
        accounts := s;
        nextId := nextId + 1;
        r := Ok(a);
      case Err(e) =>
        r := Err(e);
    }

    /** Writing back the updated document at index `i`. */
    method Replace(i: nat, a: UserProviderAccount) returns (r: Result<UserProviderAccount>)
      requires Valid() && i < |accounts| && a.id == accounts[i].id
      modifies this
      ensures Valid() && nextId == old(nextId)
      ensures match ReplaceAccount(old(accounts), i, a)
        case Ok(s) => r == Ok(a) && accounts == s
        case Err(e) => r == Err(e) && accounts == old(accounts)
    {
      ReplaceKeepsValid(accounts, i, a);
      match ReplaceAccount(accounts, i, a)
      case Ok(s) =>
        accounts := s;
        r := Ok(a);
      case Err(e) =>
        r := Err(e);
    }

    /** `findOneAndDelete` of the document at index `i`. */
    method Remove(i: nat)
      requires Valid() && i < |accounts|
      modifies this
      ensures Valid() && nextId == old(nextId)
      ensures accounts == RemoveAccount(old(accounts), i)
    {
      RemoveKeepsValid(accounts, i);
      accounts := RemoveAccount(accounts, i);
    }
  }
}
