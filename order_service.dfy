/** The payment order service (backend/services/orderService.js): sequential
    order ids, order creation, the on-demand status check with its expiry and
    settlement, and the merchant order list. The dashboard statistics of the
    same file are in `DashboardStats`.

    Foreign calls are parameters: `encode` is `encodeURIComponent`,
    `numberText` the conversion of the amount in a template string,
    `frontendUrl` the `FRONTEND_URL` environment variable, `parseDate`
    `new Date(text)`. The Paytm reply and the webhook POST outcome are inputs,
    and the webhook started in the background is run to completion before
    the call returns. */
module OrderService {

  import opened Base
  import Text
  import Paytm
  import Providers
  import opened PaymentOrderModel
  import ProviderAccountModel
  import PaymentProviderModel
  import UserModel
  import CallbackModel
  import WebhookService
  import Paging

  // ------------------------------------------------------------ order ids

  const ORDER_ID_PREFIX: string := "PAYPING"
  const ORDER_ID_KEY: string := "order_id"

  /** `formatOrderId(seq)`: "PAYPING" and the decimal number zero-padded to
      at least six digits. Larger numbers keep all their digits, and the
      number can be read back, so distinct numbers give distinct ids. */
  function FormatOrderId(n: nat): (r: string)
    ensures |r| == 7 + Max(6, |Text.DecimalString(n)|) && r[..7] == ORDER_ID_PREFIX
    ensures Text.AllDigits(r[7..]) && Text.ParseDecimal(r[7..]) == n
  {
    var digits := Text.PadStart(Text.DecimalString(n), 6, '0');
    Text.ParsePadded(n, 6);
    var r := ORDER_ID_PREFIX + digits;
    assert r[7..] == digits;
    r
  }

  lemma FormatOrderIdInjective(a: nat, b: nat)
    requires FormatOrderId(a) == FormatOrderId(b)
    ensures a == b
  {
    assert FormatOrderId(a)[7..] == FormatOrderId(b)[7..];
  }

  /** Numbers below a million take 13 characters; a seven-digit number is
      not truncated. */
  lemma FormatOrderIdLength(n: nat)
    ensures n < 1000000 ==> |FormatOrderId(n)| == 13
    ensures 1000000 <= n < 10000000 ==> |FormatOrderId(n)| == 14
  {
    assert Text.Pow10(6) == 1000000 && Text.Pow10(7) == 10000000 by {
      assert Text.Pow10(1) == 10 && Text.Pow10(2) == 100 && Text.Pow10(3) == 1000;
      assert Text.Pow10(4) == 10000 && Text.Pow10(5) == 100000;
    }
    if n < 10 {
    } else if n < 100 {
      Text.DecimalStringLength(n, 2);
    } else if n < 1000 {
      Text.DecimalStringLength(n, 3);
    } else if n < 10000 {
      Text.DecimalStringLength(n, 4);
    } else if n < 100000 {
      Text.DecimalStringLength(n, 5);
    } else if n < 1000000 {
      Text.DecimalStringLength(n, 6);
    } else if n < 10000000 {
      Text.DecimalStringLength(n, 7);
    }
  }

  /** The counter value stored under `key`, 0 before its first use. */
  function CounterValue(seqs: map<string, nat>, key: string): nat
  {
    if key in seqs then seqs[key] else 0
  }

  /** The counters collection (`Counter`, keyed by name). */
  class CounterStore {
    var seqs: map<string, nat>

    constructor ()
      ensures seqs == map[]
    {
      seqs := map[];
    }

    /** `getNextSequence(key)`: the upserting `$inc`, returning the new value:
        1 on the first use of a key, one more than the last value afterwards. */
    method GetNextSequence(key: string) returns (n: nat)
      modifies this
      ensures n == CounterValue(old(seqs), key) + 1
      ensures seqs == old(seqs)[key := n]
    {
      n := CounterValue(seqs, key) + 1;
      seqs := seqs[key := n];
    }
  }

  /** `ref` is an order id whose number is at most `c`. */
  predicate IsIssuedId(ref: string, c: nat)
  {
    |ref| >= 7 && ref[..7] == ORDER_ID_PREFIX && Text.AllDigits(ref[7..]) && Text.ParseDecimal(ref[7..]) <= c
  }

  /** Every stored order's `internalRef` came from the counter, whose current
      value is `c`. */
  predicate IdsIssuedBelow(orders: seq<PaymentOrder>, c: nat)
  {
    forall i :: 0 <= i < |orders| ==> IsIssuedId(orders[i].internalRef, c)
  }

  // --------------------------------------------------------------- create

  /** What `createOrder` returns. */
  datatype CreatedOrder = CreatedOrder(amount: real, note: Option<string>, upiLink: string, qrPayload: string)

  /** The UPI intent: payee VPA, payee name, amount, currency INR, the note
      (else "Payment") and the transaction reference. */
  function QrPayload(vpa: string, userName: string, amount: real, note: Option<string>, internalRef: string,
                     encode: string -> string, numberText: real -> string): string
  {
    "upi://pay?pa=" + vpa + "&pn=" + encode(userName) + "&am=" + numberText(amount) + "&cu=INR&tn="
      + encode(if Truthy(note) then note.value else "Payment") + "&tr=" + internalRef
  }

  const DEFAULT_FRONTEND_URL: string := "http://localhost:3000"

  /** The payment page link; `FRONTEND_URL` defaults to the local frontend. */
  function UpiLink(frontendUrl: Option<string>, internalRef: string): (r: string)
    ensures Truthy(frontendUrl) ==> r == frontendUrl.value + "/payment/" + internalRef
    ensures !Truthy(frontendUrl) ==> r == DEFAULT_FRONTEND_URL + "/payment/" + internalRef
  {
    (if Truthy(frontendUrl) then frontendUrl.value else DEFAULT_FRONTEND_URL) + "/payment/" + internalRef
  }

  /** The reference the order is stored under: the client's, else the
      generated id. */
  function FinalClientRef(clientRef: Option<string>, internalRef: string): (r: string)
    ensures Truthy(clientRef) ==> r == clientRef.value
    ensures !Truthy(clientRef) ==> r == internalRef
  {
    if Truthy(clientRef) then clientRef.value else internalRef
  }

  /** The result of `createOrder` with the orders and counters it leaves stored. */
  datatype CreateRun = CreateRun(result: Result<CreatedOrder>, orders: seq<PaymentOrder>, seqs: map<string, nat>)

  const NO_DEFAULT_MESSAGE: string := "Default provider account not found. Please set a default account."

  function DuplicateRefMessage(ref: string): string
  {
    "Order with reference " + ref + " already exists"
  }

  /** The document `createOrder` stores for sequence number `n` on the
      default `account`. */
  function DraftOrder(id: ObjectId, n: nat, account: ProviderAccountModel.UserProviderAccount, user: UserModel.User,
                      amount: real, note: Option<string>, clientRef: Option<string>, frontendUrl: Option<string>,
                      encode: string -> string, numberText: real -> string, now: Millis): (o: PaymentOrder)
    ensures o.id == id && o.user == user.id && o.providerAccount == account.id && o.status == Pending
    ensures o.internalRef == FormatOrderId(n) && o.clientRef == FinalClientRef(clientRef, FormatOrderId(n))
    ensures o.amount == amount && o.note == note && o.createdAt == now
    ensures o.upiLink == UpiLink(frontendUrl, o.internalRef)
    ensures o.qrPayload == QrPayload(account.vpa, user.name, amount, note, o.internalRef, encode, numberText)
  {
    var internalRef := FormatOrderId(n);
    NewOrder(id, user.id, account.id, internalRef, FinalClientRef(clientRef, internalRef), amount, note,
             UpiLink(frontendUrl, internalRef),
             QrPayload(account.vpa, user.name, amount, note, internalRef, encode, numberText), now)
  }

  /** `createOrder(user, { amount, note, clientRef })`; `id` is the id the
      store gives the new document. The sequence number is drawn before the
      duplicate check, so a refused duplicate still consumes it. */
  function CreateOrderSpec(orders: seq<PaymentOrder>, id: ObjectId, seqs: map<string, nat>,
                           accounts: seq<ProviderAccountModel.UserProviderAccount>, user: UserModel.User,
                           amount: real, note: Option<string>, clientRef: Option<string>, frontendUrl: Option<string>,
                           encode: string -> string, numberText: real -> string, now: Millis): CreateRun
  {
    match ProviderAccountModel.FindDefault(accounts, user.id)
    case None => CreateRun(Err(HttpError(400, NO_DEFAULT_MESSAGE)), orders, seqs)
    case Some(account) =>
      var n := CounterValue(seqs, ORDER_ID_KEY) + 1;
      var seqs' := seqs[ORDER_ID_KEY := n];
      var ref := FinalClientRef(clientRef, FormatOrderId(n));
      if FindByClientRef(orders, user.id, ref).Some? then
        CreateRun(Err(HttpError(400, DuplicateRefMessage(ref))), orders, seqs')
      else
        var o := DraftOrder(id, n, account, user, amount, note, clientRef, frontendUrl, encode, numberText, now);
        match InsertOrder(orders, o)
        case Ok(s) => CreateRun(Ok(CreatedOrder(amount, note, o.upiLink, o.qrPayload)), s, seqs')
        case Err(e) => CreateRun(Err(e), orders, seqs')
  }

  /** Without a default provider account nothing is created and no number is
      drawn. */
  lemma CreateOrderNeedsDefault(orders: seq<PaymentOrder>, id: ObjectId, seqs: map<string, nat>,
                                accounts: seq<ProviderAccountModel.UserProviderAccount>, user: UserModel.User,
                                amount: real, note: Option<string>, clientRef: Option<string>, frontendUrl: Option<string>,
                                encode: string -> string, numberText: real -> string, now: Millis)
    requires forall a :: a in accounts && a.user == user.id ==> !a.isDefault
    ensures CreateOrderSpec(orders, id, seqs, accounts, user, amount, note, clientRef, frontendUrl, encode, numberText, now)
         == CreateRun(Err(HttpError(400, NO_DEFAULT_MESSAGE)), orders, seqs)
  {
  }

  /** A reference the user already used is refused with 400 and nothing is
      stored, but the sequence number is consumed. */
  lemma CreateOrderDuplicateRef(orders: seq<PaymentOrder>, id: ObjectId, seqs: map<string, nat>,
                                accounts: seq<ProviderAccountModel.UserProviderAccount>, user: UserModel.User,
                                amount: real, note: Option<string>, clientRef: Option<string>, frontendUrl: Option<string>,
                                encode: string -> string, numberText: real -> string, now: Millis, existing: PaymentOrder)
    requires ProviderAccountModel.FindDefault(accounts, user.id).Some?
    requires Truthy(clientRef) && existing in orders && existing.user == user.id && existing.clientRef == clientRef.value
    ensures var run := CreateOrderSpec(orders, id, seqs, accounts, user, amount, note, clientRef, frontendUrl, encode, numberText, now);
      && run.result == Err(HttpError(400, DuplicateRefMessage(clientRef.value)))
      && run.orders == orders
      && run.seqs == seqs[ORDER_ID_KEY := CounterValue(seqs, ORDER_ID_KEY) + 1]
  {
  }

  /** The next number's id is not yet stored. */
  lemma NextIdIsFresh(orders: seq<PaymentOrder>, c: nat)
    requires IdsIssuedBelow(orders, c)
    ensures forall i :: 0 <= i < |orders| ==> orders[i].internalRef != FormatOrderId(c + 1)
  {
    forall i | 0 <= i < |orders|
      ensures orders[i].internalRef != FormatOrderId(c + 1)
    {
      assert IsIssuedId(orders[i].internalRef, c);
    }
  }

  /** Storing the next number's id keeps every id issued. */
  lemma IssueKeepsIdsIssued(orders: seq<PaymentOrder>, o: PaymentOrder, c: nat)
    requires IdsIssuedBelow(orders, c) && o.internalRef == FormatOrderId(c + 1)
    ensures IdsIssuedBelow(orders + [o], c + 1)
  {
    var s := orders + [o];
    forall i | 0 <= i < |s|
      ensures IsIssuedId(s[i].internalRef, c + 1)
    {
      if i < |orders| {
        assert IsIssuedId(orders[i].internalRef, c);
      }
    }
  }

  /** An order under the next number's id and a reference the user has not
      used is inserted, and the store stays valid with every id issued. */
  lemma InsertIssuedOrder(orders: seq<PaymentOrder>, o: PaymentOrder, c: nat)
    requires OrdersValid(orders) && (forall i :: 0 <= i < |orders| ==> orders[i].id < o.id)
    requires IdsIssuedBelow(orders, c) && o.internalRef == FormatOrderId(c + 1) && o.clientRef != ""
    requires FindByClientRef(orders, o.user, o.clientRef).None?
    ensures InsertOrder(orders, o) == Ok(orders + [o])
    ensures OrdersValid(orders + [o]) && IdsIssuedBelow(orders + [o], c + 1)
  {
    NextIdIsFresh(orders, c);
    assert !ClashesWithOther(orders, o) by {
      forall i | 0 <= i < |orders|
        ensures !IndexClash(orders[i], o)
      {
        assert orders[i] in orders;
      }
    }
    InsertKeepsValid(orders, o);
    IssueKeepsIdsIssued(orders, o, c);
  }

  /** On a valid store whose ids all came from the counter, a request that
      passes the two checks is stored: the new id is fresh, so no unique
      index trips. The stored order is the draft for the next number (pending,
      under the client's reference, else its own id, on the default account),
      and the store stays valid with the advanced counter. */
  lemma CreateOrderStores(orders: seq<PaymentOrder>, id: ObjectId, seqs: map<string, nat>,
                          accounts: seq<ProviderAccountModel.UserProviderAccount>, user: UserModel.User,
                          amount: real, note: Option<string>, clientRef: Option<string>, frontendUrl: Option<string>,
                          encode: string -> string, numberText: real -> string, now: Millis)
    requires OrdersValid(orders) && (forall i :: 0 <= i < |orders| ==> orders[i].id < id)
    requires IdsIssuedBelow(orders, CounterValue(seqs, ORDER_ID_KEY))
    requires ProviderAccountModel.FindDefault(accounts, user.id).Some?
    requires FindByClientRef(orders, user.id, FinalClientRef(clientRef, FormatOrderId(CounterValue(seqs, ORDER_ID_KEY) + 1))).None?
    ensures var run := CreateOrderSpec(orders, id, seqs, accounts, user, amount, note, clientRef, frontendUrl, encode, numberText, now);
      var n := CounterValue(seqs, ORDER_ID_KEY) + 1;
      var o := DraftOrder(id, n, ProviderAccountModel.FindDefault(accounts, user.id).value, user, amount, note,
                          clientRef, frontendUrl, encode, numberText, now);
      && run == CreateRun(Ok(CreatedOrder(amount, note, o.upiLink, o.qrPayload)), orders + [o], seqs[ORDER_ID_KEY := n])
      && OrdersValid(orders + [o]) && IdsIssuedBelow(orders + [o], n)
  {
    var n := CounterValue(seqs, ORDER_ID_KEY) + 1;
    var o := DraftOrder(id, n, ProviderAccountModel.FindDefault(accounts, user.id).value, user, amount, note,
                        clientRef, frontendUrl, encode, numberText, now);
    InsertIssuedOrder(orders, o, n - 1);
    CreateOrderInserts(orders, id, seqs, accounts, user, amount, note, clientRef, frontendUrl, encode, numberText, now);
  }

  /** The run of a request that passes both checks and whose draft the
      store accepts. */
  lemma CreateOrderInserts(orders: seq<PaymentOrder>, id: ObjectId, seqs: map<string, nat>,
                           accounts: seq<ProviderAccountModel.UserProviderAccount>, user: UserModel.User,
                           amount: real, note: Option<string>, clientRef: Option<string>, frontendUrl: Option<string>,
                           encode: string -> string, numberText: real -> string, now: Millis)
    requires ProviderAccountModel.FindDefault(accounts, user.id).Some?
    requires FindByClientRef(orders, user.id, FinalClientRef(clientRef, FormatOrderId(CounterValue(seqs, ORDER_ID_KEY) + 1))).None?
    requires var o := DraftOrder(id, CounterValue(seqs, ORDER_ID_KEY) + 1, ProviderAccountModel.FindDefault(accounts, user.id).value,
                                 user, amount, note, clientRef, frontendUrl, encode, numberText, now);
      InsertOrder(orders, o) == Ok(orders + [o])
    ensures var run := CreateOrderSpec(orders, id, seqs, accounts, user, amount, note, clientRef, frontendUrl, encode, numberText, now);
      var n := CounterValue(seqs, ORDER_ID_KEY) + 1;
      var o := DraftOrder(id, n, ProviderAccountModel.FindDefault(accounts, user.id).value, user, amount, note,
                          clientRef, frontendUrl, encode, numberText, now);
      run == CreateRun(Ok(CreatedOrder(amount, note, o.upiLink, o.qrPayload)), orders + [o], seqs[ORDER_ID_KEY := n])
  {
  }

  method CreateOrder(store: OrderCollection, counter: CounterStore,
                     accounts: seq<ProviderAccountModel.UserProviderAccount>, user: UserModel.User,
                     amount: real, note: Option<string>, clientRef: Option<string>, frontendUrl: Option<string>,
                     encode: string -> string, numberText: real -> string, now: Millis) returns (r: Result<CreatedOrder>)
    requires store.Valid()
    modifies store, counter
    ensures store.Valid()
    ensures CreateRun(r, store.orders, counter.seqs)
         == CreateOrderSpec(old(store.orders), old(store.nextId), old(counter.seqs), accounts, user,
                            amount, note, clientRef, frontendUrl, encode, numberText, now)
  {
    var providerAccount := ProviderAccountModel.FindDefault(accounts, user.id);
    if providerAccount.None? {
      return Err(HttpError(400, NO_DEFAULT_MESSAGE));
    }
    var n := counter.GetNextSequence(ORDER_ID_KEY);
    var internalRef := FormatOrderId(n);
    var finalClientRef := FinalClientRef(clientRef, internalRef);
    var existingOrder := FindByClientRef(store.orders, user.id, finalClientRef);
    if existingOrder.Some? {
      return Err(HttpError(400, DuplicateRefMessage(finalClientRef)));
    }
    var vpa := providerAccount.value.vpa;
    var qrPayload := QrPayload(vpa, user.name, amount, note, internalRef, encode, numberText);
    var upiLink := UpiLink(frontendUrl, internalRef);
    var created := store.Create(user.id, providerAccount.value.id, internalRef, finalClientRef,
                                amount, note, upiLink, qrPayload, now);
    if created.Err? {
      return Err(created.error);
    }
    r := Ok(CreatedOrder(amount, note, upiLink, qrPayload));
  }

  // --------------------------------------------------------- status check

  const EXPIRY_MS: int := 5 * MINUTE_MS

  /** `populate("providerAccount")`: `None` when the account is gone. */
  function FindAccount(accounts: seq<ProviderAccountModel.UserProviderAccount>, id: ObjectId)
    : (r: Option<ProviderAccountModel.UserProviderAccount>)
    ensures r.Some? ==> r.value in accounts && r.value.id == id
    ensures r.None? ==> forall a :: a in accounts ==> a.id != id
  {
    Find(accounts, (a: ProviderAccountModel.UserProviderAccount) => a.id == id)
  }

  /** The nested `populate({ path: "providerAccount", populate: "provider" })`. */
  function ProviderOf(account: Option<ProviderAccountModel.UserProviderAccount>,
                      providers: seq<PaymentProviderModel.PaymentProvider>): Option<PaymentProviderModel.PaymentProvider>
  {
    if account.None? then None else PaymentProviderModel.FindProvider(providers, account.value.provider)
  }

  function ProviderName(p: Option<PaymentProviderModel.PaymentProvider>): Option<string>
  {
    if p.Some? then Some(p.value.name) else None
  }

  /** What `checkOrderStatus` returns. */
  datatype StatusResponse = StatusResponse(
    status: string,
    utr: Option<string>,
    txnID: string,
    provider: Option<string>,
    amount: real,
    clientRef: string,
    txnTime: Option<Millis>)

  /** `buildStatusResponse(order)`. It reads `order.providerAccount.provider`
      without a guard, so an order whose account was deleted raises a
      `TypeError` (a 500) instead of a response. */
  function BuildStatusResponse(o: PaymentOrder, account: Option<ProviderAccountModel.UserProviderAccount>,
                               provider: Option<PaymentProviderModel.PaymentProvider>): (r: Result<StatusResponse>)
    ensures r.Err? <==> account.None?
    ensures r.Err? ==> r.error == TypeError
    ensures r.Ok? ==> r.value.status == OrderStatusName(o.status) && r.value.txnID == o.internalRef
    ensures r.Ok? ==> r.value.amount == o.amount && r.value.clientRef == o.clientRef && r.value.txnTime == o.txnTime
    ensures r.Ok? ==> (r.value.utr.None? <==> !Truthy(o.utr)) && (r.value.utr.Some? ==> r.value.utr == o.utr)
    ensures r.Ok? ==> r.value.provider == ProviderName(provider)
  {
    if account.None? then Err(TypeError)
    else Ok(StatusResponse(OrderStatusName(o.status), if Truthy(o.utr) then o.utr else None, o.internalRef,
                           ProviderName(provider), o.amount, o.clientRef, o.txnTime))
  }

  /** The order marked failed by expiry: the provider response is cleared. */
  function Expired(o: PaymentOrder, now: Millis): (r: PaymentOrder)
    ensures r.status == Failed && r.providerResponse.None? && r.updatedAt == now
    ensures r.(status := o.status, providerResponse := o.providerResponse, updatedAt := o.updatedAt) == o
  {
    o.(status := Failed, providerResponse := None, updatedAt := now)
  }

  /** The order settled from a provider `success`: utr, settlement time (the
      provider's, else now) and the raw provider response are recorded. */
  function Settled(o: PaymentOrder, data: Paytm.ProviderResult, now: Millis): (r: PaymentOrder)
    ensures r.status == Success && r.utr == data.utr && r.providerResponse == data.rawResponse && r.updatedAt == now
    ensures r.txnTime == Some(if data.txnTime.Some? then data.txnTime.value else now)
    ensures r.(status := o.status, utr := o.utr, txnTime := o.txnTime, providerResponse := o.providerResponse,
               updatedAt := o.updatedAt) == o
  {
    o.(status := Success, utr := data.utr, txnTime := Some(if data.txnTime.Some? then data.txnTime.value else now),
       providerResponse := data.rawResponse, updatedAt := now)
  }

  /** The status check's result, the orders stored afterwards, whether
      `sendWebhook` was called, and what that call did to the logs. */
  datatype CheckRun = CheckRun(result: Result<StatusResponse>, orders: seq<PaymentOrder>,
                               webhookCalled: bool, webhook: WebhookService.WebhookRun)

  const ORDER_NOT_FOUND_MESSAGE: string := "Order not found"
  const CONFIG_MISSING_MESSAGE: string := "Provider configuration missing for this account"

  /** The decision for a pending order that is not expired: the provider is
      asked only when its code and the merchant id are present. */
  predicate ConfigMissing(account: ProviderAccountModel.UserProviderAccount, provider: Option<PaymentProviderModel.PaymentProvider>)
  {
    provider.None? || provider.value.code == "" || account.merchantId == ""
  }

  /** `checkOrderStatus(internalRef)` on the stored orders and logs; `logId`
      is the id the log store gives a new log. */
  function CheckOrderStatusSpec(orders: seq<PaymentOrder>, logs: seq<CallbackModel.CallbackLog>, logId: ObjectId,
                                users: seq<UserModel.User>, accounts: seq<ProviderAccountModel.UserProviderAccount>,
                                providers: seq<PaymentProviderModel.PaymentProvider>, internalRef: string,
                                paytm: Paytm.PaytmReply, parseDate: string -> Millis, delivery: WebhookService.Delivery,
                                hmac: (string, string) -> string, stringify: CallbackModel.Payload -> string,
                                now: Millis): CheckRun
  {
    match IndexOfRef(orders, internalRef)
    case None => CheckRun(Err(HttpError(404, ORDER_NOT_FOUND_MESSAGE)), orders, false, WebhookService.WebhookRun(None, None, logs))
    case Some(i) =>
      var o := orders[i];
      if o.status != Pending then
        var account := FindAccount(accounts, o.providerAccount);
        CheckRun(BuildStatusResponse(o, account, ProviderOf(account, providers)), orders, false, WebhookService.WebhookRun(None, None, logs))
      else PendingCheckSpec(orders, logs, logId, i, users, accounts, providers, internalRef, paytm, parseDate, delivery, hmac, stringify, now)
  }

  /** The same for the pending order at `i`: expired, or asked of the
      provider and settled when it reports success. */
  function PendingCheckSpec(orders: seq<PaymentOrder>, logs: seq<CallbackModel.CallbackLog>, logId: ObjectId, i: nat,
                            users: seq<UserModel.User>, accounts: seq<ProviderAccountModel.UserProviderAccount>,
                            providers: seq<PaymentProviderModel.PaymentProvider>, internalRef: string,
                            paytm: Paytm.PaytmReply, parseDate: string -> Millis, delivery: WebhookService.Delivery,
                            hmac: (string, string) -> string, stringify: CallbackModel.Payload -> string,
                            now: Millis): CheckRun
    requires i < |orders|
  {
    var noCall := WebhookService.WebhookRun(None, None, logs);
    var o := orders[i];
    var account := FindAccount(accounts, o.providerAccount);
    var provider := ProviderOf(account, providers);
    var user := UserModel.FindById(users, o.user);
    if o.createdAt < now - EXPIRY_MS then
      var saved := Expired(o, now);
      var run := WebhookService.SendWebhookSpec(logs, logId, WebhookService.OrderView(saved, user, ProviderName(provider)),
                                                delivery, hmac, stringify, now);
      CheckRun(BuildStatusResponse(saved, account, provider), orders[i := saved], true, run)
    else if account.None? then
      CheckRun(Err(TypeError), orders, false, noCall)
    else if ConfigMissing(account.value, provider) then
      CheckRun(Err(HttpError(400, CONFIG_MISSING_MESSAGE)), orders, false, noCall)
    else
      var data := Providers.GetProviderStatus(provider.value.code, account.value.merchantId, internalRef, paytm, parseDate);
      if data.Some? && data.value.status == "success" then
        var saved := Settled(o, data.value, now);
        var run := WebhookService.SendWebhookSpec(logs, logId, WebhookService.OrderView(saved, user, ProviderName(provider)),
                                                  delivery, hmac, stringify, now);
        CheckRun(BuildStatusResponse(saved, account, provider), orders[i := saved], true, run)
      else
        CheckRun(BuildStatusResponse(o, account, provider), orders, false, noCall)
  }

  /** An unknown reference gives 404 and changes nothing. */
  lemma CheckUnknownOrder(orders: seq<PaymentOrder>, logs: seq<CallbackModel.CallbackLog>, logId: ObjectId,
                          users: seq<UserModel.User>, accounts: seq<ProviderAccountModel.UserProviderAccount>,
                          providers: seq<PaymentProviderModel.PaymentProvider>, internalRef: string,
                          paytm: Paytm.PaytmReply, parseDate: string -> Millis, delivery: WebhookService.Delivery,
                          hmac: (string, string) -> string, stringify: CallbackModel.Payload -> string, now: Millis)
    requires forall i :: 0 <= i < |orders| ==> orders[i].internalRef != internalRef
    ensures CheckOrderStatusSpec(orders, logs, logId, users, accounts, providers, internalRef, paytm, parseDate,
                                 delivery, hmac, stringify, now)
         == CheckRun(Err(HttpError(404, ORDER_NOT_FOUND_MESSAGE)), orders, false, WebhookService.WebhookRun(None, None, logs))
  {
  }

  /** A settled or failed order is reported as stored, with no webhook. */
  lemma CheckTerminalUnchanged(orders: seq<PaymentOrder>, logs: seq<CallbackModel.CallbackLog>, logId: ObjectId,
                               users: seq<UserModel.User>, accounts: seq<ProviderAccountModel.UserProviderAccount>,
                               providers: seq<PaymentProviderModel.PaymentProvider>, i: nat,
                               paytm: Paytm.PaytmReply, parseDate: string -> Millis, delivery: WebhookService.Delivery,
                               hmac: (string, string) -> string, stringify: CallbackModel.Payload -> string, now: Millis)
    requires OrdersValid(orders) && i < |orders| && IsTerminal(orders[i].status)
    ensures var run := CheckOrderStatusSpec(orders, logs, logId, users, accounts, providers, orders[i].internalRef,
                                            paytm, parseDate, delivery, hmac, stringify, now);
      var account := FindAccount(accounts, orders[i].providerAccount);
      && run.orders == orders && !run.webhookCalled && run.webhook.logs == logs
      && run.result == BuildStatusResponse(orders[i], account, ProviderOf(account, providers))
  {
    RefLocatesOrder(orders, i);
  }

  /** In a valid store the reference of the order at `i` finds that order. */
  lemma RefLocatesOrder(orders: seq<PaymentOrder>, i: nat)
    requires OrdersValid(orders) && i < |orders|
    ensures IndexOfRef(orders, orders[i].internalRef) == Some(i)
  {
    var r := IndexOfRef(orders, orders[i].internalRef);
    var j := r.value;
    if j < i {
      assert IndexClash(orders[j], orders[i]);
    }
  }

  /** A pending order created more than five minutes ago becomes `failed`
      with no provider response, the provider is not asked (the Paytm reply
      does not matter), and exactly one webhook is sent for the saved order. */
  lemma CheckExpiresStaleOrder(orders: seq<PaymentOrder>, logs: seq<CallbackModel.CallbackLog>, logId: ObjectId,
                               users: seq<UserModel.User>, accounts: seq<ProviderAccountModel.UserProviderAccount>,
                               providers: seq<PaymentProviderModel.PaymentProvider>, i: nat,
                               paytm: Paytm.PaytmReply, paytm': Paytm.PaytmReply, parseDate: string -> Millis,
                               delivery: WebhookService.Delivery, hmac: (string, string) -> string,
                               stringify: CallbackModel.Payload -> string, now: Millis)
    requires OrdersValid(orders) && i < |orders|
    requires orders[i].status == Pending && orders[i].createdAt < now - EXPIRY_MS
    ensures var ref := orders[i].internalRef;
      var run := CheckOrderStatusSpec(orders, logs, logId, users, accounts, providers, ref, paytm, parseDate,
                                      delivery, hmac, stringify, now);
      var saved := Expired(orders[i], now);
      var provider := ProviderOf(FindAccount(accounts, orders[i].providerAccount), providers);
      && run.orders == orders[i := saved]
      && run.webhookCalled
      && run.webhook == WebhookService.SendWebhookSpec(logs, logId,
           WebhookService.OrderView(saved, UserModel.FindById(users, orders[i].user), ProviderName(provider)),
           delivery, hmac, stringify, now)
      && run == CheckOrderStatusSpec(orders, logs, logId, users, accounts, providers, ref, paytm', parseDate,
                                     delivery, hmac, stringify, now)
  {
    RefLocatesOrder(orders, i);
  }

  /** A provider `success` settles the order and sends one webhook. */
  lemma CheckSettlesOnSuccess(orders: seq<PaymentOrder>, logs: seq<CallbackModel.CallbackLog>, logId: ObjectId,
                              users: seq<UserModel.User>, accounts: seq<ProviderAccountModel.UserProviderAccount>,
                              providers: seq<PaymentProviderModel.PaymentProvider>, i: nat,
                              paytm: Paytm.PaytmReply, parseDate: string -> Millis, delivery: WebhookService.Delivery,
                              hmac: (string, string) -> string, stringify: CallbackModel.Payload -> string, now: Millis)
    requires OrdersValid(orders) && i < |orders|
    requires orders[i].status == Pending && orders[i].createdAt >= now - EXPIRY_MS
    requires FindAccount(accounts, orders[i].providerAccount).Some?
    requires !ConfigMissing(FindAccount(accounts, orders[i].providerAccount).value,
                            ProviderOf(FindAccount(accounts, orders[i].providerAccount), providers))
    requires Text.ToLower(ProviderOf(FindAccount(accounts, orders[i].providerAccount), providers).value.code) == "paytm"
    requires paytm.Replied? && paytm.body.STATUS == Some("TXN_SUCCESS")
    ensures var run := CheckOrderStatusSpec(orders, logs, logId, users, accounts, providers, orders[i].internalRef,
                                            paytm, parseDate, delivery, hmac, stringify, now);
      && run.orders == orders[i := Settled(orders[i], Paytm.GetPaytmStatus(paytm, parseDate), now)]
      && run.orders[i].status == Success && run.orders[i].providerResponse == Some(paytm.body)
      && run.webhookCalled && run.result.Ok? && run.result.value.status == "success"
  {
    RefLocatesOrder(orders, i);
  }

  /** Whatever happens, only the checked order can change, a settled or
      failed order never changes, a pending order can only become `failed` or
      `success`, and `sendWebhook` is called exactly when the order left
      `pending` in this call. The store stays valid. */
  lemma CheckTransitions(orders: seq<PaymentOrder>, logs: seq<CallbackModel.CallbackLog>, logId: ObjectId,
                         users: seq<UserModel.User>, accounts: seq<ProviderAccountModel.UserProviderAccount>,
                         providers: seq<PaymentProviderModel.PaymentProvider>, internalRef: string,
                         paytm: Paytm.PaytmReply, parseDate: string -> Millis, delivery: WebhookService.Delivery,
                         hmac: (string, string) -> string, stringify: CallbackModel.Payload -> string, now: Millis)
    requires OrdersValid(orders)
    ensures var run := CheckOrderStatusSpec(orders, logs, logId, users, accounts, providers, internalRef, paytm,
                                            parseDate, delivery, hmac, stringify, now);
      && |run.orders| == |orders|
      && OrdersValid(run.orders)
      && (forall j :: 0 <= j < |orders| && orders[j].internalRef != internalRef ==> run.orders[j] == orders[j])
      && (forall j :: 0 <= j < |orders| && IsTerminal(orders[j].status) ==> run.orders[j] == orders[j])
      && (forall j :: 0 <= j < |orders| && run.orders[j].status != orders[j].status ==>
            orders[j].status == Pending && orders[j].internalRef == internalRef)
      && (run.webhookCalled <==> exists j :: 0 <= j < |orders| && run.orders[j].status != orders[j].status)
      && (!run.webhookCalled ==> run.orders == orders && run.webhook.logs == logs)
  {
    var run := CheckOrderStatusSpec(orders, logs, logId, users, accounts, providers, internalRef, paytm,
                                    parseDate, delivery, hmac, stringify, now);
    match IndexOfRef(orders, internalRef)
    case None =>
    case Some(i) =>
      if orders[i].status == Pending {
        PendingCheckShape(orders, logs, logId, i, users, accounts, providers, internalRef, paytm,
                          parseDate, delivery, hmac, stringify, now);
        if run.webhookCalled {
          ReplaceKeepsValid(orders, i, run.orders[i]);
        }
      }
  }

  /** A check of a pending order either changes nothing, or calls the
      webhook and replaces that order by a `failed` or `success` copy with
      the same identity. */
  lemma PendingCheckShape(orders: seq<PaymentOrder>, logs: seq<CallbackModel.CallbackLog>, logId: ObjectId, i: nat,
                          users: seq<UserModel.User>, accounts: seq<ProviderAccountModel.UserProviderAccount>,
                          providers: seq<PaymentProviderModel.PaymentProvider>, internalRef: string,
                          paytm: Paytm.PaytmReply, parseDate: string -> Millis, delivery: WebhookService.Delivery,
                          hmac: (string, string) -> string, stringify: CallbackModel.Payload -> string, now: Millis)
    requires i < |orders| && orders[i].status == Pending
    ensures var run := PendingCheckSpec(orders, logs, logId, i, users, accounts, providers, internalRef, paytm,
                                        parseDate, delivery, hmac, stringify, now);
      && (!run.webhookCalled ==> run.orders == orders && run.webhook.logs == logs)
      && (run.webhookCalled ==>
            && run.orders == orders[i := run.orders[i]]
            && run.orders[i].status in {Failed, Success}
            && run.orders[i].id == orders[i].id && run.orders[i].internalRef == orders[i].internalRef
            && run.orders[i].user == orders[i].user && run.orders[i].clientRef == orders[i].clientRef)
  {
  }

  /** `order.save()` followed by `sendWebhook(order)`, as both branches
      that change an order do. */
  method SaveAndNotify(store: OrderCollection, logStore: CallbackModel.CallbackLogCollection, i: nat, o: PaymentOrder,
                       user: Option<UserModel.User>, providerName: Option<string>, delivery: WebhookService.Delivery,
                       hmac: (string, string) -> string, stringify: CallbackModel.Payload -> string, now: Millis)
    returns (saved: PaymentOrder, request: Option<WebhookService.WebhookRequest>, returned: Option<CallbackModel.CallbackLog>)
    requires store.Valid() && logStore.Valid() && i < |store.orders|
    requires o.id == store.orders[i].id && o.internalRef == store.orders[i].internalRef
    requires o.user == store.orders[i].user && o.clientRef == store.orders[i].clientRef
    modifies store, logStore
    ensures store.Valid() && logStore.Valid()
    ensures saved == o.(updatedAt := now) && store.orders == old(store.orders)[i := saved]
    ensures WebhookService.WebhookRun(request, returned, logStore.logs)
         == WebhookService.SendWebhookSpec(old(logStore.logs), old(logStore.nextId),
                                           WebhookService.OrderView(saved, user, providerName), delivery, hmac, stringify, now)
  {
    saved := store.Save(i, o, now);
    request, returned := WebhookService.SendWebhook(logStore, WebhookService.OrderView(saved, user, providerName),
                                                    delivery, hmac, stringify, now);
  }

  method CheckOrderStatus(store: OrderCollection, logStore: CallbackModel.CallbackLogCollection,
                          users: seq<UserModel.User>, accounts: seq<ProviderAccountModel.UserProviderAccount>,
                          providers: seq<PaymentProviderModel.PaymentProvider>, internalRef: string,
                          paytm: Paytm.PaytmReply, parseDate: string -> Millis, delivery: WebhookService.Delivery,
                          hmac: (string, string) -> string, stringify: CallbackModel.Payload -> string, now: Millis)
    returns (r: Result<StatusResponse>, called: bool, request: Option<WebhookService.WebhookRequest>,
             returned: Option<CallbackModel.CallbackLog>)
    requires store.Valid() && logStore.Valid()
    modifies store, logStore
    ensures store.Valid() && logStore.Valid()
    ensures CheckRun(r, store.orders, called, WebhookService.WebhookRun(request, returned, logStore.logs))
         == CheckOrderStatusSpec(old(store.orders), old(logStore.logs), old(logStore.nextId), users, accounts, providers,
                                 internalRef, paytm, parseDate, delivery, hmac, stringify, now)
  {
    called, request, returned := false, None, None;
    var found := IndexOfRef(store.orders, internalRef);
    if found.None? {
      return Err(HttpError(404, ORDER_NOT_FOUND_MESSAGE)), called, request, returned;
    }
    var i := found.value;
    var order := store.orders[i];
    if order.status != Pending {
      var account := FindAccount(accounts, order.providerAccount);
      var provider := ProviderOf(account, providers);
      return BuildStatusResponse(order, account, provider), called, request, returned;
    }
    r, called, request, returned := CheckPending(store, logStore, i, users, accounts, providers, internalRef, paytm,
                                                 parseDate, delivery, hmac, stringify, now);
  }

  /** `checkOrderStatus` from the point where the order is known to be pending. */
  method CheckPending(store: OrderCollection, logStore: CallbackModel.CallbackLogCollection, i: nat,
                      users: seq<UserModel.User>, accounts: seq<ProviderAccountModel.UserProviderAccount>,
                      providers: seq<PaymentProviderModel.PaymentProvider>, internalRef: string,
                      paytm: Paytm.PaytmReply, parseDate: string -> Millis, delivery: WebhookService.Delivery,
                      hmac: (string, string) -> string, stringify: CallbackModel.Payload -> string, now: Millis)
    returns (r: Result<StatusResponse>, called: bool, request: Option<WebhookService.WebhookRequest>,
             returned: Option<CallbackModel.CallbackLog>)
    requires store.Valid() && logStore.Valid() && i < |store.orders|
    modifies store, logStore
    ensures store.Valid() && logStore.Valid()
    ensures CheckRun(r, store.orders, called, WebhookService.WebhookRun(request, returned, logStore.logs))
         == PendingCheckSpec(old(store.orders), old(logStore.logs), old(logStore.nextId), i, users, accounts, providers,
                             internalRef, paytm, parseDate, delivery, hmac, stringify, now)
  {
    called, request, returned := false, None, None;
    var order := store.orders[i];
    var account := FindAccount(accounts, order.providerAccount);
    var provider := ProviderOf(account, providers);
    var user := UserModel.FindById(users, order.user);
    if order.createdAt < now - EXPIRY_MS {
      order := order.(status := Failed);
      order := order.(providerResponse := None);
      var saved;
      saved, request, returned := SaveAndNotify(store, logStore, i, order, user, ProviderName(provider), delivery, hmac, stringify, now);
      assert saved == Expired(old(store.orders)[i], now);
      return BuildStatusResponse(saved, account, provider), true, request, returned;
    }
    if account.None? {
      return Err(TypeError), called, request, returned;
    }
    if provider.None? || provider.value.code == "" || account.value.merchantId == "" {
      return Err(HttpError(400, CONFIG_MISSING_MESSAGE)), called, request, returned;
    }
    var providerData := Providers.GetProviderStatus(provider.value.code, account.value.merchantId, internalRef, paytm, parseDate);
    if providerData.Some? && providerData.value.status == "success" {
      order := order.(status := Success);
      order := order.(utr := providerData.value.utr);
      order := order.(txnTime := Some(if providerData.value.txnTime.Some? then providerData.value.txnTime.value else now));
      order := order.(providerResponse := providerData.value.rawResponse);
      var saved;
      saved, request, returned := SaveAndNotify(store, logStore, i, order, user, ProviderName(provider), delivery, hmac, stringify, now);
      assert saved == Settled(old(store.orders)[i], providerData.value, now);
      return BuildStatusResponse(saved, account, provider), true, request, returned;
    }
    r := BuildStatusResponse(order, account, provider);
  }

  // ----------------------------------------------------------- order list

  /** The fields `fetchOrders` selects. */
  datatype OrderSummary = OrderSummary(id: ObjectId, amount: real, status: OrderStatus, internalRef: string,
                                       clientRef: string, utr: Option<string>, txnTime: Option<Millis>, createdAt: Millis)

  function Summary(o: PaymentOrder): OrderSummary
  {
    OrderSummary(o.id, o.amount, o.status, o.internalRef, o.clientRef, o.utr, o.txnTime, o.createdAt)
  }

  datatype Pagination = Pagination(total: nat, page: int, pages: Paging.PageCount)

  /** The list filter: the user's orders, and only the given status when a
      non-empty status is given. */
  predicate Listed(o: PaymentOrder, user: ObjectId, status: Option<string>)
  {
    o.user == user && (!Truthy(status) || OrderStatusName(o.status) == status.value)
  }

  /** The matching orders newest first (documents are stored in creation order). */
  function Matching(orders: seq<PaymentOrder>, user: ObjectId, status: Option<string>): (r: seq<PaymentOrder>)
    ensures forall o :: o in r <==> o in orders && Listed(o, user, status)
    ensures |r| == Count(orders, (o: PaymentOrder) => Listed(o, user, status))
  {
    CountIsFilterLength(orders, (o: PaymentOrder) => Listed(o, user, status));
    var f := Filter(orders, (o: PaymentOrder) => Listed(o, user, status));
    var r := Reverse(f);
    assert forall o :: o in r <==> o in f by {
      forall o | o in f ensures o in r {
        var k :| 0 <= k < |f| && f[k] == o;
        assert r[|f| - 1 - k] == o;
      }
    }
    r
  }

  /** `fetchOrders(user, { status, page = 1, limit = 50 })`. The query
      values are not validated: a negative skip is refused by the database,
      and the error, which carries no status code, reaches the client as a
      500; a limit of 0 lists every match. */
  function FetchOrders(orders: seq<PaymentOrder>, user: ObjectId, q: Paging.ListQuery)
    : (r: Result<(seq<OrderSummary>, Pagination)>)
    ensures r.Err? <==> Paging.Skip(Paging.PageParam(q), Paging.LimitParam(q)) < 0
    ensures r.Err? ==> r.error == Paging.REFUSED_SKIP
    ensures r.Ok? ==> Paging.LimitParam(q) != 0 ==> |r.value.0| <= Paging.Abs(Paging.LimitParam(q))
    ensures r.Ok? ==> forall k :: 0 <= k < |r.value.0| ==>
      exists o :: o in orders && Listed(o, user, q.status) && r.value.0[k] == Summary(o)
    ensures r.Ok? ==> r.value.1.total == Count(orders, (o: PaymentOrder) => Listed(o, user, q.status))
    ensures r.Ok? ==> r.value.1.page == Paging.PageParam(q)
    ensures r.Ok? ==> r.value.1.pages == Paging.PageCountOf(r.value.1.total, Paging.LimitParam(q))
  {
    var m := Matching(orders, user, q.status);
    match Paging.Window(m, Paging.PageParam(q), Paging.LimitParam(q))
    case None => Err(Paging.REFUSED_SKIP)
    case Some(p) =>
      var items := seq(|p|, k requires 0 <= k < |p| => Summary(p[k]));
      assert forall k :: 0 <= k < |p| ==> p[k] in m;
      Ok((items, Pagination(|m|, Paging.PageParam(q), Paging.PageCountOf(|m|, Paging.LimitParam(q)))))
  }

  /** Every order the filter matches is listed, newest first, on one of the
      `pages` pages of the same query. */
  lemma EveryListedOrderOnSomePage(orders: seq<PaymentOrder>, user: ObjectId, status: Option<string>, limit: int, o: PaymentOrder)
    requires limit >= 1 && o in orders && Listed(o, user, status)
    ensures var first := FetchOrders(orders, user, Paging.ListQuery(status, None, Some(limit)));
      first.Ok? && first.value.1.pages.Finite?
    ensures exists page ::
      && 1 <= page <= FetchOrders(orders, user, Paging.ListQuery(status, None, Some(limit))).value.1.pages.n
      && FetchOrders(orders, user, Paging.ListQuery(status, Some(page), Some(limit))).Ok?
      && Summary(o) in FetchOrders(orders, user, Paging.ListQuery(status, Some(page), Some(limit))).value.0
  {
    var m := Matching(orders, user, status);
    assert o in m;
    var i :| 0 <= i < |m| && m[i] == o;
    var page, at := Paging.PageHolding(m, limit, i);
    var q := Paging.ListQuery(status, Some(page), Some(limit));
    FetchedSummaries(orders, user, q);
    var items := FetchOrders(orders, user, q).value.0;
    assert items[at] == Summary(o);
    assert Summary(o) in items;
    assert page <= FetchOrders(orders, user, Paging.ListQuery(status, None, Some(limit))).value.1.pages.n;
  }

  /** The listed page is the summaries of the matching orders' window of the
      query. */
  lemma FetchedSummaries(orders: seq<PaymentOrder>, user: ObjectId, q: Paging.ListQuery)
    ensures var w := Paging.Window(Matching(orders, user, q.status), Paging.PageParam(q), Paging.LimitParam(q));
      && (FetchOrders(orders, user, q).Ok? <==> w.Some?)
      && (w.Some? ==> |FetchOrders(orders, user, q).value.0| == |w.value|
                      && forall k :: 0 <= k < |w.value| ==> FetchOrders(orders, user, q).value.0[k] == Summary(w.value[k]))
  {
  }

  /** A limit of 0 sets no limit: the first page holds every matching order,
      newest first, and `pages` is `Infinity`, or `NaN` when nothing
      matches. */
  lemma ZeroLimitListsAll(orders: seq<PaymentOrder>, user: ObjectId, status: Option<string>, page: int)
    ensures var r := FetchOrders(orders, user, Paging.ListQuery(status, Some(page), Some(0)));
      var m := Matching(orders, user, status);
      && r.Ok?
      && |r.value.0| == |m| && (forall k :: 0 <= k < |m| ==> r.value.0[k] == Summary(m[k]))
      && r.value.1.pages == (if m == [] then Paging.NotANumber else Paging.Infinite)
  {
    FetchedSummaries(orders, user, Paging.ListQuery(status, Some(page), Some(0)));
  }

  /** Page 0 or a negative page with a positive limit is refused, and the
      client gets a 500. */
  lemma NonPositivePageRefused(orders: seq<PaymentOrder>, user: ObjectId, status: Option<string>, page: int, limit: int)
    requires page <= 0 && limit >= 1
    ensures FetchOrders(orders, user, Paging.ListQuery(status, Some(page), Some(limit))).Err?
    ensures FetchOrders(orders, user, Paging.ListQuery(status, Some(page), Some(limit))).error.statusCode.None?
  {
    assert Paging.Skip(page, limit) < 0 by {
      assert (page - 1) * limit <= -limit;
    }
  }
}
