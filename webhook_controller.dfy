/** The merchant's webhook log endpoints (backend/controllers/webhookController.js):
    the paged log list and the manual retry of one delivery. The retry itself
    (`manualRetryWebhook`) is not part of this model; it is the parameter
    `manualRetry`, and only its guard chain is modelled. */
module WebhookController {

  import opened Base
  import opened CallbackModel
  import PaymentOrderModel
  import UserModel
  import Paging

  // ------------------------------------------------------------ log list

  /** The order fields the list populates: `internalRef amount clientRef`. */
  datatype OrderRef = OrderRef(id: ObjectId, internalRef: string, amount: real, clientRef: string)

  /** A listed log with its populated order (`None` when the order is gone). */
  datatype LogEntry = LogEntry(log: CallbackLog, order: Option<OrderRef>)

  datatype Pagination = Pagination(total: nat, page: int, pages: Paging.PageCount)

  function PopulateOrder(orders: seq<PaymentOrderModel.PaymentOrder>, id: ObjectId): (r: Option<OrderRef>)
    ensures r.Some? ==> r.value.id == id
    ensures r.Some? <==> exists o :: o in orders && o.id == id
  {
    match Find(orders, (o: PaymentOrderModel.PaymentOrder) => o.id == id)
    case None => None
    case Some(o) => Some(OrderRef(o.id, o.internalRef, o.amount, o.clientRef))
  }

  /** The filter object: the user's logs, and the status only when a
      non-empty one is given. */
  predicate Listed(log: CallbackLog, user: ObjectId, status: Option<string>)
  {
    log.user == user && (!Truthy(status) || LogStatusName(log.status) == status.value)
  }

  /** The matching logs newest first (logs are stored in creation order). */
  function MatchingLogs(logs: seq<CallbackLog>, user: ObjectId, status: Option<string>): (r: seq<CallbackLog>)
    ensures |r| == Count(logs, (l: CallbackLog) => Listed(l, user, status))
    ensures forall k :: 0 <= k < |r| ==> r[k] in logs && Listed(r[k], user, status)
  {
    CountIsFilterLength(logs, (l: CallbackLog) => Listed(l, user, status));
    var r := Reverse(Filter(logs, (l: CallbackLog) => Listed(l, user, status)));
    assert forall k :: 0 <= k < |r| ==> r[k] in Filter(logs, (l: CallbackLog) => Listed(l, user, status));
    r
  }

  /** `getWebhookLogs`: the requested window of the matching logs, each with
      its populated order, and the counts. The query values are not
      validated: a negative skip is refused by the database and the error
      goes to the error middleware (a 500); a limit of 0 lists every match. */
  function GetWebhookLogs(logs: seq<CallbackLog>, orders: seq<PaymentOrderModel.PaymentOrder>, user: ObjectId,
                          q: Paging.ListQuery): (r: Result<(seq<LogEntry>, Pagination)>)
    ensures r.Err? <==> Paging.Skip(Paging.PageParam(q), Paging.LimitParam(q)) < 0
    ensures r.Err? ==> r.error == Paging.REFUSED_SKIP
    ensures r.Ok? ==> Paging.LimitParam(q) != 0 ==> |r.value.0| <= Paging.Abs(Paging.LimitParam(q))
    ensures r.Ok? ==> forall k :: 0 <= k < |r.value.0| ==>
      && r.value.0[k].log in logs && Listed(r.value.0[k].log, user, q.status)
      && r.value.0[k].order == PopulateOrder(orders, r.value.0[k].log.order)
    ensures r.Ok? ==> r.value.1.total == Count(logs, (l: CallbackLog) => Listed(l, user, q.status))
    ensures r.Ok? ==> r.value.1.page == Paging.PageParam(q)
    ensures r.Ok? ==> r.value.1.pages == Paging.PageCountOf(r.value.1.total, Paging.LimitParam(q))
  {
    var matching := MatchingLogs(logs, user, q.status);
    match Paging.Window(matching, Paging.PageParam(q), Paging.LimitParam(q))
    case None => Err(Paging.REFUSED_SKIP)
    case Some(page) =>
      var entries := seq(|page|, k requires 0 <= k < |page| => LogEntry(page[k], PopulateOrder(orders, page[k].order)));
      Ok((entries, Pagination(|matching|, Paging.PageParam(q), Paging.PageCountOf(|matching|, Paging.LimitParam(q)))))
  }

  /** A status filter of "" lists everything, like no filter. */
  lemma EmptyStatusListsAll(logs: seq<CallbackLog>, orders: seq<PaymentOrderModel.PaymentOrder>, user: ObjectId,
                            page: Option<int>, limit: Option<int>)
    ensures GetWebhookLogs(logs, orders, user, Paging.ListQuery(Some(""), page, limit))
         == GetWebhookLogs(logs, orders, user, Paging.ListQuery(None, page, limit))
  {
    AgreeingFilter(logs, (l: CallbackLog) => Listed(l, user, Some("")), (l: CallbackLog) => Listed(l, user, None));
  }

  /** A limit of 0 lists every matching log, newest first, and `pages` is
      `Infinity`, or `NaN` when nothing matches; page 0 with a positive limit
      is refused. */
  lemma UnboundedAndRefusedQueries(logs: seq<CallbackLog>, orders: seq<PaymentOrderModel.PaymentOrder>, user: ObjectId,
                                   status: Option<string>, page: int, limit: int)
    ensures var r := GetWebhookLogs(logs, orders, user, Paging.ListQuery(status, Some(page), Some(0)));
      var m := MatchingLogs(logs, user, status);
      && r.Ok? && |r.value.0| == |m| && (forall k :: 0 <= k < |m| ==> r.value.0[k].log == m[k])
      && r.value.1.pages == (if m == [] then Paging.NotANumber else Paging.Infinite)
    ensures page <= 0 && limit >= 1 ==>
      GetWebhookLogs(logs, orders, user, Paging.ListQuery(status, Some(page), Some(limit))) == Err(Paging.REFUSED_SKIP)
  {
    if page <= 0 && limit >= 1 {
      assert Paging.Skip(page, limit) < 0 by {
        assert (page - 1) * limit <= -limit;
      }
    }
  }

  // ----------------------------------------------------------- retry guard

  const LOG_NOT_FOUND_MESSAGE: string := "Webhook log not found"
  const ALREADY_DELIVERED_MESSAGE: string := "This webhook was already delivered successfully"
  const IN_PROGRESS_MESSAGE: string := "This webhook is already being processed"
  const PERMANENTLY_FAILED_MESSAGE: string := "This webhook has permanently failed and cannot be retried"

  /** The log `findOne({ _id: id, user })` returns. */
  function FindOwnedLog(logs: seq<CallbackLog>, id: ObjectId, user: ObjectId): (r: Option<CallbackLog>)
    ensures r.Some? ==> r.value in logs && r.value.id == id && r.value.user == user
    ensures r.None? <==> forall l :: l in logs ==> !(l.id == id && l.user == user)
  {
    Find(logs, (l: CallbackLog) => l.id == id && l.user == user)
  }

  /** The guard chain of `retryWebhookLog`: the log that may be retried, or
      the error thrown. */
  function RetryGuard(logs: seq<CallbackLog>, id: ObjectId, user: ObjectId): (r: Result<CallbackLog>)
    ensures r.Ok? ==> Some(r.value) == FindOwnedLog(logs, id, user) && r.value.status == Retry
  {
    match FindOwnedLog(logs, id, user)
    case None => Err(HttpError(404, LOG_NOT_FOUND_MESSAGE))
    case Some(log) =>
      match log.status
      case Success => Err(HttpError(400, ALREADY_DELIVERED_MESSAGE))
      case Pending => Err(HttpError(400, IN_PROGRESS_MESSAGE))
      case Failed => Err(HttpError(400, PERMANENTLY_FAILED_MESSAGE))
      case Retry => Ok(log)
  }

  /** `retryWebhookLog`: only a `retry` log of the caller reaches
      `manualRetry`; whatever it returns is the response. */
  function RetryWebhookLog(logs: seq<CallbackLog>, id: ObjectId, user: UserModel.User,
                           manualRetry: (CallbackLog, UserModel.User) -> CallbackLog): (r: Result<CallbackLog>)
    ensures r.Ok? <==> RetryGuard(logs, id, user.id).Ok?
    ensures r.Ok? ==> r.value == manualRetry(RetryGuard(logs, id, user.id).value, user)
    ensures r.Err? ==> r == Err(RetryGuard(logs, id, user.id).error)
  {
    match RetryGuard(logs, id, user.id)
    case Err(e) => Err(e)
    case Ok(log) => Ok(manualRetry(log, user))
  }

  /** Each outcome of the guard, by the state of the caller's log: absent
      or someone else's gives 404, `success`, `pending` and `failed` give
      400 with their own message, and only `retry` passes. */
  lemma RetryGuardCases(logs: seq<CallbackLog>, id: ObjectId, user: ObjectId)
    requires LogsValid(logs)
    ensures forall l :: l in logs && l.id == id && l.user != user ==>
      RetryGuard(logs, id, user) == Err(HttpError(404, LOG_NOT_FOUND_MESSAGE))
    ensures forall i :: 0 <= i < |logs| && logs[i].id == id && logs[i].user == user ==>
      RetryGuard(logs, id, user) == match logs[i].status
        case Success => Err(HttpError(400, ALREADY_DELIVERED_MESSAGE))
        case Pending => Err(HttpError(400, IN_PROGRESS_MESSAGE))
        case Failed => Err(HttpError(400, PERMANENTLY_FAILED_MESSAGE))
        case Retry => Ok(logs[i])
  {
    forall l | l in logs && l.id == id && l.user != user
      ensures FindOwnedLog(logs, id, user).None?
    {
      var a :| 0 <= a < |logs| && logs[a] == l;
      forall m | m in logs
        ensures !(m.id == id && m.user == user)
      {
        if m.id == id {
          var b :| 0 <= b < |logs| && logs[b] == m;
          assert logs[a].id == logs[b].id;
          assert a == b;
        }
      }
    }
    forall i | 0 <= i < |logs| && logs[i].id == id && logs[i].user == user
      ensures FindOwnedLog(logs, id, user) == Some(logs[i])
    {
      assert logs[i] in logs;
      var g := FindOwnedLog(logs, id, user).value;
      var b :| 0 <= b < |logs| && logs[b] == g;
      assert b == i;
    }
  }

  /** A request refused by the guard never reaches `manualRetry`, whatever
      it would do. */
  lemma RefusedRetryIgnoresManualRetry(logs: seq<CallbackLog>, id: ObjectId, user: UserModel.User,
                                       f: (CallbackLog, UserModel.User) -> CallbackLog,
                                       g: (CallbackLog, UserModel.User) -> CallbackLog)
    requires RetryGuard(logs, id, user.id).Err?
    ensures RetryWebhookLog(logs, id, user, f) == RetryWebhookLog(logs, id, user, g)
  {
  }
}
