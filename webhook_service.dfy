/** Merchant webhook delivery (backend/services/webhookService.js). One call
    builds the payload, signs it, inserts a new delivery log, posts the
    payload and records the outcome on the log with a fixed back-off
    schedule. The POST and the two writes of the log are I/O: how they ended
    is the input `delivery`.
    HMAC-SHA256 (section 2 of RFC 2104) and `JSON.stringify` are the
    parameters `hmac` and `stringify`. */
module WebhookService {

  import opened Base
  import opened CallbackModel
  import PaymentOrderModel
  import UserModel
  import Keys

  /** The order as `sendWebhook` reads it, with its references populated:
      `user` is `None` when the user document is gone, `providerName` is
      `None` when the account or its provider is gone or has no name. */
  datatype OrderView = OrderView(order: PaymentOrderModel.PaymentOrder, user: Option<UserModel.User>, providerName: Option<string>)

  /** How the awaited I/O of one call ended: `CallbackLog.create` was
      rejected, so nothing was posted; the POST threw; or the POST answered
      (`ok` for a 2xx status) and the `log.save()` recording the answer went
      through (`saved`) or was rejected. The `catch` swallows every rejection. */
  datatype Delivery = CreateRejected | Threw | Responded(ok: bool, saved: bool)

  /** The request sent to the merchant. `signatureHeader` is the value of
      `x-payping-signature`; a `null` header value is sent as the text "null". */
  datatype WebhookRequest = WebhookRequest(url: string, contentType: string, signatureHeader: string, body: string)

  /** The payload: the order's status, utr (`null` when empty), client
      reference, amount and settlement time (else its last update), and the
      provider's name (else "Unknown"). */
  function BuildPayload(o: PaymentOrderModel.PaymentOrder, providerName: Option<string>): (p: Payload)
    ensures p.status == o.status && p.ref == o.clientRef && p.amount == o.amount
    ensures p.utr.None? <==> !Truthy(o.utr)
    ensures p.utr.Some? ==> p.utr == o.utr
    ensures o.txnTime.Some? ==> p.txnTime == o.txnTime.value
    ensures o.txnTime.None? ==> p.txnTime == o.updatedAt
    ensures p.provider != ""
    ensures Truthy(providerName) ==> p.provider == providerName.value
  {
    Payload(o.status,
            if Truthy(o.utr) then o.utr else None,
            o.clientRef,
            o.amount,
            if o.txnTime.Some? then o.txnTime.value else o.updatedAt,
            if Truthy(providerName) then providerName.value else "Unknown")
  }

  /** `generateSignature(payload, secret)`: the hex HMAC of the serialised payload. */
  function GenerateSignature(payload: Payload, secret: string, hmac: (string, string) -> string,
                             stringify: Payload -> string): string
  {
    hmac(secret, stringify(payload))
  }

  /** The signature when the user has a (non-empty) webhook secret, else `null`. */
  function Signature(user: UserModel.User, payload: Payload, hmac: (string, string) -> string,
                     stringify: Payload -> string): (s: Option<string>)
    ensures s.None? <==> !Truthy(user.webhookSecret)
    ensures s.Some? ==> s.value == hmac(user.webhookSecret.value, stringify(payload))
  {
    if Truthy(user.webhookSecret) then Some(GenerateSignature(payload, user.webhookSecret.value, hmac, stringify)) else None
  }

  /** The header value on the wire: a `null` value becomes the text "null". */
  function SignatureHeader(s: Option<string>): string
  {
    if s.Some? then s.value else "null"
  }

  /** The delay before the next automatic attempt after the n-th failure. */
  const RETRY_INTERVALS: seq<int> := [5 * MINUTE_MS, 30 * MINUTE_MS, 12 * HOUR_MS, 24 * HOUR_MS]

  /** A 2xx response: the log is delivered and counts one more attempt. */
  function AfterSuccess(log: CallbackLog): (r: CallbackLog)
    ensures r.status == Success && r.attempts == log.attempts + 1
    ensures r.(status := log.status, attempts := log.attempts) == log
  {
    log.(status := Success, attempts := log.attempts + 1)
  }

  /** Any other response: one more attempt; while at most four attempts have
      been made the log is `retry` with the next attempt due after the
      matching interval, after that it is `failed` with no next attempt. */
  function AfterFailure(log: CallbackLog, now: Millis): (r: CallbackLog)
    ensures r.attempts == log.attempts + 1
    ensures 1 <= r.attempts <= |RETRY_INTERVALS| ==>
      r.status == Retry && r.nextRetryAt == Some(now + RETRY_INTERVALS[r.attempts - 1])
    ensures r.attempts > |RETRY_INTERVALS| ==> r.status == Failed && r.nextRetryAt.None?
    ensures r.(status := log.status, attempts := log.attempts, nextRetryAt := log.nextRetryAt) == log
  {
    var attempts := log.attempts + 1;
    if attempts <= |RETRY_INTERVALS| then
      log.(attempts := attempts, status := Retry, nextRetryAt := Some(now + RETRY_INTERVALS[attempts - 1]))
    else
      log.(attempts := attempts, status := Failed, nextRetryAt := None)
  }

  /** The intervals grow: each retry waits longer than the one before. */
  lemma RetryIntervalsIncrease(i: nat, j: nat)
    requires i < j < |RETRY_INTERVALS|
    ensures 0 < RETRY_INTERVALS[i] < RETRY_INTERVALS[j]
  {
  }

  /** `n` failed responses one after another, at the times in `times`. */
  function Failures(log: CallbackLog, times: seq<Millis>): CallbackLog
    decreases |times|
  {
    if times == [] then log else Failures(AfterFailure(log, times[0]), times[1..])
  }

  /** From a fresh log, the k-th consecutive failure (k <= 4) leaves it in
      `retry` due after the k-th interval; the fifth and every later one
      leave it `failed`. */
  lemma {:induction false} FailureSchedule(log: CallbackLog, times: seq<Millis>)
    requires log.attempts == 0 && |times| >= 1
    ensures var r := Failures(log, times);
      && r.attempts == |times|
      && (|times| <= 4 ==> r.status == Retry && r.nextRetryAt == Some(times[|times| - 1] + RETRY_INTERVALS[|times| - 1]))
      && (|times| > 4 ==> r.status == Failed && r.nextRetryAt.None?)
  {
    FailuresFrom(log, times);
  }

  lemma {:induction false} FailuresFrom(log: CallbackLog, times: seq<Millis>)
    requires |times| >= 1
    decreases |times|
    ensures var r := Failures(log, times);
      && r.attempts == log.attempts + |times|
      && r == AfterFailure(Failures(log, times[..|times| - 1]), times[|times| - 1])
  {
    if |times| == 1 {
      assert times[..0] == [];
      assert times[1..] == [];
    } else {
      FailuresFrom(AfterFailure(log, times[0]), times[1..]);
      assert times[1..][..|times[1..]| - 1] == times[..|times| - 1][1..];
    }
  }

  /** What one `sendWebhook` call did: the request it sent, the log it
      returned (nothing when it returned early or swallowed an error), and
      the logs stored afterwards. */
  datatype WebhookRun = WebhookRun(request: Option<WebhookRequest>, returned: Option<CallbackLog>, logs: seq<CallbackLog>)

  predicate WantsWebhook(view: OrderView)
  {
    view.user.Some? && Truthy(view.user.value.callbackUrl)
  }

  /** `sendWebhook(order)` on the stored `logs`; `id` is the id the store
      gives the new log and `now` the clock. */
  function SendWebhookSpec(logs: seq<CallbackLog>, id: ObjectId, view: OrderView, delivery: Delivery,
                           hmac: (string, string) -> string, stringify: Payload -> string, now: Millis): WebhookRun
  {
    if !WantsWebhook(view) || delivery.CreateRejected? then WebhookRun(None, None, logs)
    else
      var user := view.user.value;
      var url := user.callbackUrl.value;
      var payload := BuildPayload(view.order, view.providerName);
      var signature := Signature(user, payload, hmac, stringify);
      var log := NewLog(id, user.id, view.order.id, url, payload, now);
      var request := WebhookRequest(url, "application/json", SignatureHeader(signature), stringify(payload));
      match delivery
      case Threw => WebhookRun(Some(request), None, logs + [log])
      case Responded(_, false) => WebhookRun(Some(request), None, logs + [log])
      case Responded(ok, true) =>
        var saved := (if ok then AfterSuccess(log) else AfterFailure(log, now)).(updatedAt := now);
        WebhookRun(Some(request), Some(saved), logs + [saved])
  }

  /** With no user or no callback URL nothing is sent and nothing is stored. */
  lemma NoCallbackNoLog(logs: seq<CallbackLog>, id: ObjectId, view: OrderView, delivery: Delivery,
                        hmac: (string, string) -> string, stringify: Payload -> string, now: Millis)
    requires view.user.None? || !Truthy(view.user.value.callbackUrl)
    ensures SendWebhookSpec(logs, id, view, delivery, hmac, stringify, now) == WebhookRun(None, None, logs)
  {
  }

  /** Otherwise a rejected `create` sends and stores nothing, and every other
      call appends exactly one new log for this order, to the user's callback
      URL, and leaves the existing logs as they were: no log is looked up or
      reused. The request goes to the same URL and its body is the serialised
      payload. */
  lemma EveryCallAppendsOneLog(logs: seq<CallbackLog>, id: ObjectId, view: OrderView, delivery: Delivery,
                               hmac: (string, string) -> string, stringify: Payload -> string, now: Millis)
    requires WantsWebhook(view)
    ensures delivery.CreateRejected? ==>
      SendWebhookSpec(logs, id, view, delivery, hmac, stringify, now) == WebhookRun(None, None, logs)
    ensures var run := SendWebhookSpec(logs, id, view, delivery, hmac, stringify, now);
      !delivery.CreateRejected? ==>
      && |run.logs| == |logs| + 1 && run.logs[..|logs|] == logs
      && var log := run.logs[|logs|];
      && log.id == id && log.order == view.order.id && log.user == view.user.value.id
      && log.url == view.user.value.callbackUrl.value
      && log.payload == BuildPayload(view.order, view.providerName)
      && run.request.Some? && run.request.value.url == log.url
      && run.request.value.body == stringify(log.payload)
  {
    if !delivery.CreateRejected? {
      var run := SendWebhookSpec(logs, id, view, delivery, hmac, stringify, now);
      assert run.logs[..|logs|] == logs;
    }
  }

  /** The signature header is the HMAC, under the user's secret, of exactly
      the body that is sent; without a secret it is the text "null". */
  lemma SignatureCoversBody(logs: seq<CallbackLog>, id: ObjectId, view: OrderView, delivery: Delivery,
                            hmac: (string, string) -> string, stringify: Payload -> string, now: Millis)
    requires WantsWebhook(view) && !delivery.CreateRejected?
    ensures var req := SendWebhookSpec(logs, id, view, delivery, hmac, stringify, now).request.value;
      && (Truthy(view.user.value.webhookSecret) ==> req.signatureHeader == hmac(view.user.value.webhookSecret.value, req.body))
      && (!Truthy(view.user.value.webhookSecret) ==> req.signatureHeader == "null")
  {
  }

  /** A signature is 64 lower-case hex digits, so the "null" header of an
      unsigned delivery is never mistaken for a signature. */
  lemma NullHeaderIsNotASignature(s: string)
    requires |s| == 64 && Keys.IsLowerHex(s)
    ensures s != SignatureHeader(None)
  {
    assert !Keys.IsLowerHexChar('n');
    assert s[0] != 'n';
  }

  /** The outcome recorded on the new log: 2xx gives `success` after one
      attempt; any other status gives `retry` due in five minutes; a thrown
      POST, or a rejected save of either answer, returns nothing and leaves
      the stored log `pending` with 0 attempts. */
  lemma FirstDeliveryOutcome(logs: seq<CallbackLog>, id: ObjectId, view: OrderView, delivery: Delivery,
                             hmac: (string, string) -> string, stringify: Payload -> string, now: Millis)
    requires WantsWebhook(view) && !delivery.CreateRejected?
    ensures var run := SendWebhookSpec(logs, id, view, delivery, hmac, stringify, now);
      var log := run.logs[|logs|];
      && (delivery == Responded(true, true) ==> run.returned == Some(log) && log.status == Success && log.attempts == 1)
      && (delivery == Responded(false, true) ==>
            run.returned == Some(log) && log.status == Retry && log.attempts == 1 && log.nextRetryAt == Some(now + 5 * MINUTE_MS))
      && ((delivery.Threw? || (delivery.Responded? && !delivery.saved)) ==>
            run.returned.None? && log.status == Pending && log.attempts == 0 && log.nextRetryAt.None?)
  {
  }

  /** The delivery log store stays valid. */
  lemma SendWebhookKeepsValid(logs: seq<CallbackLog>, id: ObjectId, view: OrderView, delivery: Delivery,
                              hmac: (string, string) -> string, stringify: Payload -> string, now: Millis)
    requires LogsValid(logs) && forall i :: 0 <= i < |logs| ==> logs[i].id < id
    ensures LogsValid(SendWebhookSpec(logs, id, view, delivery, hmac, stringify, now).logs)
  {
    var run := SendWebhookSpec(logs, id, view, delivery, hmac, stringify, now);
    if WantsWebhook(view) && !delivery.CreateRejected? {
      forall i, j | 0 <= i < j < |run.logs|
        ensures run.logs[i].id != run.logs[j].id
      {
        if j == |logs| {
          assert logs[i].id < id;
        }
      }
    }
  }

  /** `sendWebhook(order)`, step by step on the log store. */
  method SendWebhook(store: CallbackLogCollection, view: OrderView, delivery: Delivery,
                     hmac: (string, string) -> string, stringify: Payload -> string, now: Millis)
    returns (request: Option<WebhookRequest>, returned: Option<CallbackLog>)
    requires store.Valid()
    modifies store
    ensures store.Valid() && store.nextId == old(store.nextId) + (|store.logs| - |old(store.logs)|)
    ensures WebhookRun(request, returned, store.logs)
         == SendWebhookSpec(old(store.logs), old(store.nextId), view, delivery, hmac, stringify, now)
  {
    if view.user.None? || !Truthy(view.user.value.callbackUrl) {
      return None, None;
    }
    var user := view.user.value;
    var payload := BuildPayload(view.order, view.providerName);
    var signature := if Truthy(user.webhookSecret)
      then Some(GenerateSignature(payload, user.webhookSecret.value, hmac, stringify)) else None;
    if delivery.CreateRejected? {
      return None, None;
    }
    var log := store.Create(user.id, view.order.id, user.callbackUrl.value, payload, now);
    request := Some(WebhookRequest(user.callbackUrl.value, "application/json", SignatureHeader(signature), stringify(payload)));
    if delivery.Threw? {
      return request, None;
    }
    if delivery.ok {
      log := log.(status := Success);
      log := log.(attempts := log.attempts + 1);
    } else {
      log := log.(attempts := log.attempts + 1);
      if log.attempts <= |RETRY_INTERVALS| {
        log := log.(status := Retry);
        var interval := RETRY_INTERVALS[log.attempts - 1];
        log := log.(nextRetryAt := Some(now + interval));
      } else {
        log := log.(status := Failed);
        log := log.(nextRetryAt := None);
      }
    }
    if !delivery.saved {
      return request, None;
    }
    var saved := store.Save(|store.logs| - 1, log, now);
    returned := Some(saved);
  }
}
