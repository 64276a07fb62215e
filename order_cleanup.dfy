/** One tick of the order clean-up job (backend/cron/orderCleanup.js): every
    pending order created more than ten minutes ago is marked `failed`,
    saved, and sent to the merchant's webhook, one after the other.

    The cron schedule is not modelled: a tick is one call at time `now`.
    The outcome of the k-th webhook POST of the tick is `deliveries(k)`. A
    store error while saving the k-th order (`saveFailsAt == Some(k)`) ends
    the tick there; the error is only logged. */
module OrderCleanup {

  import opened Base
  import opened PaymentOrderModel
  import UserModel
  import ProviderAccountModel
  import PaymentProviderModel
  import CallbackModel
  import WebhookService
  import OrderService

  const SWEEP_WINDOW_MS: int := 10 * MINUTE_MS

  /** The sweep's query: pending and created strictly before the cutoff. */
  predicate Stale(o: PaymentOrder, now: Millis)
  {
    o.status == Pending && o.createdAt < now - SWEEP_WINDOW_MS
  }

  predicate Increasing(s: seq<nat>)
  {
    forall k, l :: 0 <= k < l < |s| ==> s[k] < s[l]
  }

  /** The positions of the stale orders from `from` on, in store order. */
  function StaleIndices(orders: seq<PaymentOrder>, now: Millis, from: nat): (r: seq<nat>)
    requires from <= |orders|
    ensures Increasing(r)
    ensures forall k :: 0 <= k < |r| ==> from <= r[k] < |orders| && Stale(orders[r[k]], now)
    ensures forall j :: from <= j < |orders| && Stale(orders[j], now) ==> j in r
    decreases |orders| - from
  {
    if from == |orders| then []
    else
      var rest := StaleIndices(orders, now, from + 1);
      if Stale(orders[from], now) then [from] + rest else rest
  }

  /** The order as the sweep saves it: `failed`, and unlike the on-demand
      expiry in `OrderService.Expired` the provider response is kept. */
  function Swept(o: PaymentOrder, now: Millis): (r: PaymentOrder)
    ensures r.status == Failed && r.updatedAt == now && r.providerResponse == o.providerResponse
    ensures r.(status := o.status, updatedAt := o.updatedAt) == o
  {
    o.(status := Failed, updatedAt := now)
  }

  /** The populated order handed to `sendWebhook`. */
  function ViewOf(o: PaymentOrder, users: seq<UserModel.User>, accounts: seq<ProviderAccountModel.UserProviderAccount>,
                  providers: seq<PaymentProviderModel.PaymentProvider>): WebhookService.OrderView
  {
    var account := OrderService.FindAccount(accounts, o.providerAccount);
    WebhookService.OrderView(o, UserModel.FindById(users, o.user), OrderService.ProviderName(OrderService.ProviderOf(account, providers)))
  }

  /** What a tick reads besides the two collections: the users, accounts
      and providers the query populates, the webhook outcomes, the foreign
      HMAC and JSON serialisation, and the clock. */
  datatype Tick = Tick(
    users: seq<UserModel.User>,
    accounts: seq<ProviderAccountModel.UserProviderAccount>,
    providers: seq<PaymentProviderModel.PaymentProvider>,
    deliveries: nat -> WebhookService.Delivery,
    hmac: (string, string) -> string,
    stringify: CallbackModel.Payload -> string,
    now: Millis)

  /** The stored orders and logs, and the id the log store gives next. */
  datatype SweepState = SweepState(orders: seq<PaymentOrder>, logs: seq<CallbackModel.CallbackLog>, nextLogId: ObjectId)

  /** One step of the loop: the order at `i` is saved as `failed` and sent
      to the webhook as the k-th POST of the tick. */
  function SweepStep(st: SweepState, i: nat, k: nat, t: Tick): (r: SweepState)
    requires i < |st.orders|
    ensures r.orders == st.orders[i := Swept(st.orders[i], t.now)]
    ensures |st.logs| <= |r.logs| <= |st.logs| + 1 && r.logs[..|st.logs|] == st.logs
    ensures r.nextLogId == st.nextLogId + (|r.logs| - |st.logs|)
  {
    var saved := Swept(st.orders[i], t.now);
    var view := ViewOf(saved, t.users, t.accounts, t.providers);
    if WebhookService.WantsWebhook(view) then
      WebhookService.EveryCallAppendsOneLog(st.logs, st.nextLogId, view, t.deliveries(k), t.hmac, t.stringify, t.now);
      StepState(st, i, saved, view, k, t)
    else StepState(st, i, saved, view, k, t)
  }

  function StepState(st: SweepState, i: nat, saved: PaymentOrder, view: WebhookService.OrderView, k: nat, t: Tick): SweepState
    requires i < |st.orders|
  {
    var run := WebhookService.SendWebhookSpec(st.logs, st.nextLogId, view, t.deliveries(k), t.hmac, t.stringify, t.now);
    SweepState(st.orders[i := saved], run.logs, st.nextLogId + (|run.logs| - |st.logs|))
  }

  /** The state after the first `n` expired orders were saved and webhooked. */
  function SweepSteps(st: SweepState, expired: seq<nat>, n: nat, t: Tick): (r: SweepState)
    requires n <= |expired| && forall k :: 0 <= k < |expired| ==> expired[k] < |st.orders|
    ensures r.orders == SweptOrders(st.orders, expired, n, t.now)
    ensures |st.logs| <= |r.logs| <= |st.logs| + n && r.logs[..|st.logs|] == st.logs
    ensures r.nextLogId == st.nextLogId + (|r.logs| - |st.logs|)
  {
    if n == 0 then st
    else
      var prev := SweepSteps(st, expired, n - 1, t);
      var r := SweepStep(prev, expired[n - 1], n - 1, t);
      assert r.logs[..|st.logs|] == r.logs[..|prev.logs|][..|st.logs|];
      r
  }

  /** How many expired orders the tick gets through. */
  function Processed(count: nat, saveFailsAt: Option<nat>): (n: nat)
    ensures n <= count
    ensures saveFailsAt.None? ==> n == count
    ensures saveFailsAt.Some? && saveFailsAt.value < count ==> n == saveFailsAt.value
  {
    if saveFailsAt.Some? && saveFailsAt.value < count then saveFailsAt.value else count
  }

  /** The whole tick on the stored orders and logs. */
  function CleanupSpec(st: SweepState, saveFailsAt: Option<nat>, t: Tick): SweepState
  {
    var expired := StaleIndices(st.orders, t.now, 0);
    SweepSteps(st, expired, Processed(|expired|, saveFailsAt), t)
  }

  /** After `n` steps the first `n` expired orders are swept exactly once
      and every other order is as it was. */
  lemma SweepStepsOrders(st: SweepState, expired: seq<nat>, n: nat, t: Tick)
    requires n <= |expired| && Increasing(expired) && forall k :: 0 <= k < |expired| ==> expired[k] < |st.orders|
    ensures var r := SweepSteps(st, expired, n, t);
      forall j :: 0 <= j < |st.orders| ==> r.orders[j] == if j in expired[..n] then Swept(st.orders[j], t.now) else st.orders[j]
  {
    SweptOrdersAre(st.orders, expired, n, t.now);
  }

  /** The orders after the first `n` steps of the sweep. */
  function SweptOrders(orders: seq<PaymentOrder>, expired: seq<nat>, n: nat, now: Millis): (r: seq<PaymentOrder>)
    requires n <= |expired| && forall k :: 0 <= k < |expired| ==> expired[k] < |orders|
    ensures |r| == |orders|
  {
    if n == 0 then orders
    else
      var prev := SweptOrders(orders, expired, n - 1, now);
      prev[expired[n - 1] := Swept(prev[expired[n - 1]], now)]
  }

  lemma {:induction false} SweptOrdersAre(orders: seq<PaymentOrder>, expired: seq<nat>, n: nat, now: Millis)
    requires n <= |expired| && Increasing(expired) && forall k :: 0 <= k < |expired| ==> expired[k] < |orders|
    ensures forall j :: 0 <= j < |orders| ==>
      SweptOrders(orders, expired, n, now)[j] == if j in expired[..n] then Swept(orders[j], now) else orders[j]
  {
    if n > 0 {
      SweptOrdersAre(orders, expired, n - 1, now);
      var i := expired[n - 1];
      assert i !in expired[..n - 1];
      assert expired[..n] == expired[..n - 1] + [i];
      SweepOneMore(orders, SweptOrders(orders, expired, n - 1, now), expired[..n - 1], i, now);
    }
  }

  /** Sweeping one more position `i` extends the swept positions by `i`. */
  lemma SweepOneMore(orders: seq<PaymentOrder>, prev: seq<PaymentOrder>, done: seq<nat>, i: nat, now: Millis)
    requires |prev| == |orders| && i < |orders| && i !in done
    requires forall j :: 0 <= j < |orders| ==> prev[j] == if j in done then Swept(orders[j], now) else orders[j]
    ensures forall j :: 0 <= j < |orders| ==>
      prev[i := Swept(prev[i], now)][j] == if j in done + [i] then Swept(orders[j], now) else orders[j]
  {
    forall j | 0 <= j < |orders|
      ensures prev[i := Swept(prev[i], now)][j] == if j in done + [i] then Swept(orders[j], now) else orders[j]
    {
      assert j in done + [i] <==> j in done || j == i;
    }
  }

  /** A tick that is not cut short leaves no stale order behind; an order
      that was not stale is untouched, and a stale one becomes `failed`
      with its provider response kept. */
  lemma CleanupExpiresExactlyStale(st: SweepState, t: Tick)
    ensures var r := CleanupSpec(st, None, t);
      && |r.orders| == |st.orders|
      && (forall j :: 0 <= j < |st.orders| ==> !Stale(r.orders[j], t.now))
      && (forall j :: 0 <= j < |st.orders| ==>
            r.orders[j] == if Stale(st.orders[j], t.now) then Swept(st.orders[j], t.now) else st.orders[j])
  {
    var expired := StaleIndices(st.orders, t.now, 0);
    SweepStepsOrders(st, expired, |expired|, t);
    assert expired[..|expired|] == expired;
  }

  /** In an increasing sequence the first k entries are exactly the entries
      at positions below k. */
  lemma PrefixOfIncreasing(s: seq<nat>, k: nat, l: nat)
    requires Increasing(s) && k <= |s| && l < |s|
    ensures s[l] in s[..k] <==> l < k
  {
    if l < k {
      assert s[..k][l] == s[l];
    } else {
      forall m | 0 <= m < k
        ensures s[..k][m] != s[l]
      {
        assert s[m] < s[l];
      }
    }
  }

  /** A tick cut short at the k-th save has swept exactly the first k stale
      orders, in store order, and left the later ones and every order that
      was not stale as they were. */
  lemma CleanupAbortedTick(st: SweepState, k: nat, t: Tick)
    requires k < |StaleIndices(st.orders, t.now, 0)|
    ensures var expired := StaleIndices(st.orders, t.now, 0);
      var r := CleanupSpec(st, Some(k), t);
      && |r.orders| == |st.orders|
      && (forall l :: 0 <= l < k ==> r.orders[expired[l]] == Swept(st.orders[expired[l]], t.now))
      && (forall l :: k <= l < |expired| ==> r.orders[expired[l]] == st.orders[expired[l]])
      && (forall j :: 0 <= j < |st.orders| && !Stale(st.orders[j], t.now) ==> r.orders[j] == st.orders[j])
  {
    var expired := StaleIndices(st.orders, t.now, 0);
    SweepStepsOrders(st, expired, k, t);
    forall l | 0 <= l < |expired|
      ensures expired[l] in expired[..k] <==> l < k
    {
      PrefixOfIncreasing(expired, k, l);
    }
    forall j | 0 <= j < |st.orders| && !Stale(st.orders[j], t.now)
      ensures j !in expired[..k]
    {
      forall m | 0 <= m < k
        ensures expired[..k][m] != j
      {
        assert Stale(st.orders[expired[m]], t.now);
      }
    }
  }

  /** The loop body: `order.status = "failed"`, `order.save()`, then
      `sendWebhook(order)` on the saved document. */
  method ExpireAndNotify(store: OrderCollection, logStore: CallbackModel.CallbackLogCollection, i: nat,
                         order: PaymentOrder, k: nat, t: Tick)
    requires store.Valid() && logStore.Valid() && i < |store.orders| && order == store.orders[i]
    modifies store, logStore
    ensures store.Valid() && logStore.Valid()
    ensures SweepState(store.orders, logStore.logs, logStore.nextId)
         == SweepStep(SweepState(old(store.orders), old(logStore.logs), old(logStore.nextId)), i, k, t)
  {
    var failed := order.(status := Failed);
    var saved := store.Save(i, failed, t.now);
    var _, _ := WebhookService.SendWebhook(logStore, ViewOf(saved, t.users, t.accounts, t.providers),
                                           t.deliveries(k), t.hmac, t.stringify, t.now);
  }

  /** Before step `n` the order it sweeps is still as stored at the start,
      and the step extends the sweep by one. */
  lemma NextSweepStep(st: SweepState, expired: seq<nat>, n: nat, t: Tick)
    requires n < |expired| && Increasing(expired) && forall k :: 0 <= k < |expired| ==> expired[k] < |st.orders|
    ensures SweepSteps(st, expired, n, t).orders[expired[n]] == st.orders[expired[n]]
    ensures SweepSteps(st, expired, n + 1, t) == SweepStep(SweepSteps(st, expired, n, t), expired[n], n, t)
  {
    SweepStepsOrders(st, expired, n, t);
    PrefixOfIncreasing(expired, n, n);
  }

  /** One pass of the loop: the n-th expired order, as found by the query,
      is expired and sent. */
  method SweepNext(store: OrderCollection, logStore: CallbackModel.CallbackLogCollection, ghost st0: SweepState,
                   expired: seq<nat>, n: nat, order: PaymentOrder, t: Tick)
    requires store.Valid() && logStore.Valid()
    requires n < |expired| && Increasing(expired) && forall k :: 0 <= k < |expired| ==> expired[k] < |st0.orders|
    requires order == st0.orders[expired[n]]
    requires SweepState(store.orders, logStore.logs, logStore.nextId) == SweepSteps(st0, expired, n, t)
    modifies store, logStore
    ensures store.Valid() && logStore.Valid()
    ensures SweepState(store.orders, logStore.logs, logStore.nextId) == SweepSteps(st0, expired, n + 1, t)
  {
    NextSweepStep(st0, expired, n, t);
    ExpireAndNotify(store, logStore, expired[n], order, n, t);
  }

  /** `PaymentOrder.find(...)`: the documents at the given positions. */
  function Documents(orders: seq<PaymentOrder>, positions: seq<nat>): (r: seq<PaymentOrder>)
    requires forall k :: 0 <= k < |positions| ==> positions[k] < |orders|
    ensures |r| == |positions| && forall k :: 0 <= k < |positions| ==> r[k] == orders[positions[k]]
  {
    seq(|positions|, k requires 0 <= k < |positions| => orders[positions[k]])
  }

  /** The tick. Returns how many expired orders it processed. */
  method CleanupTick(store: OrderCollection, logStore: CallbackModel.CallbackLogCollection,
                     saveFailsAt: Option<nat>, t: Tick) returns (processed: nat)
    requires store.Valid() && logStore.Valid()
    modifies store, logStore
    ensures store.Valid() && logStore.Valid()
    ensures processed == Processed(|StaleIndices(old(store.orders), t.now, 0)|, saveFailsAt)
    ensures SweepState(store.orders, logStore.logs, logStore.nextId)
         == CleanupSpec(SweepState(old(store.orders), old(logStore.logs), old(logStore.nextId)), saveFailsAt, t)
  {
    ghost var st0 := SweepState(store.orders, logStore.logs, logStore.nextId);
    var expired := StaleIndices(store.orders, t.now, 0);
    var expiredOrders := Documents(store.orders, expired);
    // The save of the order at position `stop` throws (the store is
    // unavailable), which ends the tick; without a failure all are processed.
    var stop := Processed(|expired|, saveFailsAt);
    assert CleanupSpec(st0, saveFailsAt, t) == SweepSteps(st0, expired, stop, t);
    for k := 0 to stop
      invariant store.Valid() && logStore.Valid()
      invariant SweepState(store.orders, logStore.logs, logStore.nextId) == SweepSteps(st0, expired, k, t)
    {
      SweepNext(store, logStore, st0, expired, k, expiredOrders[k], t);
    }
    processed := stop;
  }
}
