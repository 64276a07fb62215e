/** The merchant dashboard's webhook log list (frontend/src/pages/WebhookLogs.jsx):
    the query each fetch sends, the infinite-scroll state, the status filter,
    the per-status display configuration and the manual retry from the detail
    dialog. The HTTP answer of each request is an input: `None` stands for a
    request that threw. */
module WebhookLogsPage {

  import opened Base
  import Paging
  import ListMerge
  import opened CallbackModel
  import PaymentOrderModel
  import WebhookController

  /** `new URLSearchParams({ page: pageNum, limit: 20 })`. */
  const LOGS_LIMIT: int := 20

  /** The filter value that sends no `status` parameter. */
  const ALL: string := "all"

  /** The query of `fetchLogs(pageNum)` under the current filter: `status`
      is set only when the filter is not "all". */
  function LogsRequest(pageNum: int, filter: string): (q: Paging.ListQuery)
    ensures q.page == Some(pageNum) && q.limit == Some(LOGS_LIMIT)
    ensures q.status.Some? <==> filter != ALL
    ensures q.status.Some? ==> q.status.value == filter
  {
    Paging.ListQuery(if filter != ALL then Some(filter) else None, Some(pageNum), Some(LOGS_LIMIT))
  }

  /** Under the filter "all" the server lists every log of the user; under
      a status name, exactly the user's logs in that status. */
  lemma FilterSelects(pageNum: int, filter: string, log: CallbackLog, user: ObjectId)
    ensures WebhookController.Listed(log, user, LogsRequest(pageNum, filter).status) <==>
      log.user == user && (filter == ALL || filter == "" || LogStatusName(log.status) == filter)
    ensures forall s :: filter == LogStatusName(s) ==>
      (WebhookController.Listed(log, user, LogsRequest(pageNum, filter).status) <==> log.user == user && log.status == s)
  {
    forall s | filter == LogStatusName(s)
      ensures WebhookController.Listed(log, user, LogsRequest(pageNum, filter).status) <==> log.user == user && log.status == s
    {
      if LogStatusName(log.status) == filter {
        LogStatusNameInjective(log.status, s);
      }
    }
  }

  type Answer = (seq<WebhookController.LogEntry>, WebhookController.Pagination)

  /** `_id`, by which the list tells entries apart. */
  function LogKey(e: WebhookController.LogEntry): ObjectId
  {
    e.log.id
  }

  /** The logs the server lists under a filter, newest first, each with
      its populated order. */
  function Listing(logs: seq<CallbackLog>, orders: seq<PaymentOrderModel.PaymentOrder>, user: ObjectId,
                   filter: string): (r: seq<WebhookController.LogEntry>)
    ensures forall k :: 0 <= k < |r| ==>
      r[k].log in logs && WebhookController.Listed(r[k].log, user, LogsRequest(1, filter).status)
  {
    var m := WebhookController.MatchingLogs(logs, user, LogsRequest(1, filter).status);
    seq(|m|, k requires 0 <= k < |m| => WebhookController.LogEntry(m[k], WebhookController.PopulateOrder(orders, m[k].order)))
  }

  /** The answer for page `pageNum` of a listing. */
  function PageAnswer(items: seq<WebhookController.LogEntry>, pageNum: int): Answer
    requires pageNum >= 1
  {
    (Paging.PageOf(items, pageNum, LOGS_LIMIT),
     WebhookController.Pagination(|items|, pageNum, Paging.Finite(Paging.Pages(|items|, LOGS_LIMIT))))
  }

  /** What the log endpoint answers to the page's request is exactly page
      `pageNum` of the filtered listing. */
  lemma ServerAnswersPage(logs: seq<CallbackLog>, orders: seq<PaymentOrderModel.PaymentOrder>, user: ObjectId,
                          filter: string, pageNum: int)
    requires pageNum >= 1
    ensures WebhookController.GetWebhookLogs(logs, orders, user, LogsRequest(pageNum, filter))
         == Ok(PageAnswer(Listing(logs, orders, user, filter), pageNum))
  {
    var q := LogsRequest(pageNum, filter);
    assert q.status == LogsRequest(1, filter).status;
    var m := WebhookController.MatchingLogs(logs, user, q.status);
    var l := Listing(logs, orders, user, filter);
    var p := Paging.PageOf(m, pageNum, LOGS_LIMIT);
    var lp := Paging.PageOf(l, pageNum, LOGS_LIMIT);
    assert |l| == |m|;
    assert |lp| == |p|;
    assert Paging.Window(m, pageNum, LOGS_LIMIT) == Some(p);
    assert Paging.PageCountOf(|m|, LOGS_LIMIT) == Paging.Finite(Paging.Pages(|l|, LOGS_LIMIT));
    var g := WebhookController.GetWebhookLogs(logs, orders, user, q).value;
    assert g.0 == seq(|p|, k requires 0 <= k < |p| => WebhookController.LogEntry(p[k], WebhookController.PopulateOrder(orders, p[k].order)));
    assert g.0 == lp by {
      forall k | 0 <= k < |p|
        ensures g.0[k] == lp[k]
      {
        assert p[k] == m[Paging.Skip(pageNum, LOGS_LIMIT) + k];
        assert lp[k] == l[Paging.Skip(pageNum, LOGS_LIMIT) + k];
      }
    }
  }

  /** Log ids are distinct in the store, so they are in every listing. */
  lemma ListingHasDistinctIds(logs: seq<CallbackLog>, orders: seq<PaymentOrderModel.PaymentOrder>, user: ObjectId,
                              filter: string)
    requires LogsValid(logs)
    ensures ListMerge.DistinctKeys(Listing(logs, orders, user, filter), LogKey)
  {
    var pred := (l: CallbackLog) => WebhookController.Listed(l, user, LogsRequest(1, filter).status);
    var id := (l: CallbackLog) => l.id;
    ListMerge.FilterKeepsDistinct(logs, pred, id);
    ListMerge.ReverseKeepsDistinct(Filter(logs, pred), id);
    var m := Reverse(Filter(logs, pred));
    var l := Listing(logs, orders, user, filter);
    assert forall k :: 0 <= k < |l| ==> LogKey(l[k]) == id(m[k]);
  }

  // ------------------------------------------------------ status display

  datatype Icon = CheckCircle2 | Clock | RefreshCw | XCircle

  datatype StatusConfig = StatusConfig(labelText: string, color: string, bg: string, border: string, icon: Icon)

  const SUCCESS_CONFIG: StatusConfig := StatusConfig("Delivered", "text-green-600", "bg-green-500/10", "border-green-500/20", CheckCircle2)
  const PENDING_CONFIG: StatusConfig := StatusConfig("Pending", "text-amber-600", "bg-amber-500/10", "border-amber-500/20", Clock)
  const RETRY_CONFIG: StatusConfig := StatusConfig("Retrying", "text-blue-600", "bg-blue-500/10", "border-blue-500/20", RefreshCw)
  const FAILED_CONFIG: StatusConfig := StatusConfig("Failed", "text-red-600", "bg-red-500/10", "border-red-500/20", XCircle)

  /** `STATUS_CONFIG[status] || STATUS_CONFIG.pending`. */
  function ConfigFor(status: string): StatusConfig
  {
    if status == "success" then SUCCESS_CONFIG
    else if status == "pending" then PENDING_CONFIG
    else if status == "retry" then RETRY_CONFIG
    else if status == "failed" then FAILED_CONFIG
    else PENDING_CONFIG
  }

  /** Each status of the log schema has its own label and icon, and every
      other value is shown as pending. */
  lemma ConfigDistinguishesStatuses(a: LogStatus, b: LogStatus, other: string)
    ensures ConfigFor(LogStatusName(a)).labelText == ConfigFor(LogStatusName(b)).labelText <==> a == b
    ensures ConfigFor(LogStatusName(a)).icon == ConfigFor(LogStatusName(b)).icon <==> a == b
    ensures (forall s :: other != LogStatusName(s)) ==> ConfigFor(other) == ConfigFor(LogStatusName(Pending))
  {
    if other != "success" && other != "pending" && other != "retry" && other != "failed" {
      assert ConfigFor(other) == PENDING_CONFIG;
    } else {
      assert other == LogStatusName(Success) || other == LogStatusName(Pending)
          || other == LogStatusName(Retry) || other == LogStatusName(Failed);
    }
  }

  /** The detail dialog offers "Retry Now" only for a `retry` log. */
  predicate RetryButtonShown(status: string)
  {
    status == "retry"
  }

  /** The button appears exactly for the logs of the user that the server's
      retry guard lets through. */
  lemma RetryButtonMatchesGuard(logs: seq<CallbackLog>, i: nat, user: ObjectId)
    requires LogsValid(logs) && i < |logs| && logs[i].user == user
    ensures RetryButtonShown(LogStatusName(logs[i].status)) <==> WebhookController.RetryGuard(logs, logs[i].id, user).Ok?
  {
    WebhookController.RetryGuardCases(logs, logs[i].id, user);
  }

  // ------------------------------------------------------------ the page

  /** The page's state cells. */
  class LogsPage {
    var logs: seq<WebhookController.LogEntry>
    var loading: bool
    var isFetchingMore: bool
    var page: int
    var hasMore: bool
    var statusFilter: string
    var selectedLog: Option<WebhookController.LogEntry>
    var retrying: bool

    /** Showing the first `page` pages of `items`. */
    predicate Shows(items: seq<WebhookController.LogEntry>)
      reads this
    {
      ListMerge.ShowsPages(logs, page, hasMore, items, LOGS_LIMIT)
    }

    constructor ()
      ensures logs == [] && loading && !isFetchingMore && page == 1 && hasMore
      ensures statusFilter == ALL && selectedLog.None? && !retrying
    {
      logs := [];
      loading := true;
      isFetchingMore := false;
      page := 1;
      hasMore := true;
      statusFilter := ALL;
      selectedLog := None;
      retrying := false;
    }

    /** `fetchLogs(pageNum, replace)`: returns the query it sends; the
        answer is merged into the list and `hasMore` taken from its
        pagination, and both loading flags are cleared at the end. A failed
        request changes nothing else. */
    method FetchLogs(pageNum: int, replace: bool, response: Option<Answer>) returns (q: Paging.ListQuery)
      modifies this
      ensures q == LogsRequest(pageNum, statusFilter)
      ensures response.Some? ==>
        && logs == ListMerge.MergePage(old(logs), response.value.0, LogKey, pageNum, replace)
        && hasMore == ListMerge.HasMore(response.value.1.page, Paging.SentPages(response.value.1.pages))
      ensures response.None? ==> logs == old(logs) && hasMore == old(hasMore)
      ensures !loading && !isFetchingMore && page == old(page) && statusFilter == old(statusFilter)
      ensures selectedLog == old(selectedLog) && retrying == old(retrying)
    {
      if replace {
        loading := true;
      } else {
        isFetchingMore := true;
      }
      q := LogsRequest(pageNum, statusFilter);
      match response {
        case Some(data) =>
          logs := ListMerge.MergePage(logs, data.0, LogKey, pageNum, replace);
          hasMore := ListMerge.HasMore(data.1.page, Paging.SentPages(data.1.pages));
        case None =>
      }
      loading := false;
      isFetchingMore := false;
    }

    /** A new filter (and the first render): back to page 1, the list
        emptied, and page 1 fetched under the new filter, replacing. A
        failed fetch leaves the list empty. Answered with page 1 of the new
        listing, the page shows that page. */
    method ChangeFilter(value: string, ghost items: seq<WebhookController.LogEntry>, response: Option<Answer>)
      returns (q: Paging.ListQuery)
      modifies this
      ensures statusFilter == value && page == 1 && !loading && !isFetchingMore
      ensures q == LogsRequest(1, value)
      ensures response.Some? ==> logs == response.value.0
      ensures response.None? ==> logs == [] && hasMore == old(hasMore)
      ensures response == Some(PageAnswer(items, 1)) ==> Shows(items)
      ensures selectedLog == old(selectedLog) && retrying == old(retrying)
    {
      statusFilter := value;
      page := 1;
      logs := [];
      q := FetchLogs(1, true, response);
      if response == Some(PageAnswer(items, 1)) {
        ListMerge.FirstPageShows([], items, LogKey, LOGS_LIMIT);
      }
    }

    /** The last entry scrolled into view: when nothing is loading and more
        pages exist, the page number goes up by one and that page is fetched
        for appending. Answered with the next page of a listing with distinct
        ids, the page then shows one more page of it. */
    method ReachLastRow(ghost items: seq<WebhookController.LogEntry>, response: Option<Answer>)
      requires page >= 1
      modifies this
      ensures page >= 1 && statusFilter == old(statusFilter)
      ensures selectedLog == old(selectedLog) && retrying == old(retrying)
      ensures !old(hasMore && !loading && !isFetchingMore) ==>
        logs == old(logs) && page == old(page) && hasMore == old(hasMore)
        && loading == old(loading) && isFetchingMore == old(isFetchingMore)
      ensures old(hasMore && !loading && !isFetchingMore) ==>
        && page == old(page) + 1 && !loading && !isFetchingMore
        && (response.Some? ==>
              && logs == ListMerge.MergePage(old(logs), response.value.0, LogKey, old(page) + 1, false)
              && hasMore == ListMerge.HasMore(response.value.1.page, Paging.SentPages(response.value.1.pages)))
        && (response.None? ==> logs == old(logs) && hasMore == old(hasMore))
      ensures (old(Shows(items)) && ListMerge.DistinctKeys(items, LogKey)
               && response == Some(PageAnswer(items, old(page) + 1))) ==> Shows(items)
    {
      if hasMore && !loading && !isFetchingMore {
        if Shows(items) && ListMerge.DistinctKeys(items, LogKey) && response == Some(PageAnswer(items, page + 1)) {
          ListMerge.NextPageExtends(logs, page, hasMore, items, LogKey, LOGS_LIMIT);
        }
        page := page + 1;
        if page > 1 {
          var _ := FetchLogs(page, false, response);
        }
      }
    }

    /** `handleRetryNow`: on success the dialog shows the updated log and the
        list entry with its id is replaced by it, nothing else in the list
        changing; `retrying` is false again at the end. */
    method HandleRetryNow(response: Option<WebhookController.LogEntry>)
      modifies this
      ensures response.Some? ==>
        selectedLog == response && logs == ListMerge.ReplaceByKey(old(logs), response.value, LogKey)
      ensures response.None? ==> selectedLog == old(selectedLog) && logs == old(logs)
      ensures !retrying && page == old(page) && hasMore == old(hasMore) && statusFilter == old(statusFilter)
      ensures loading == old(loading) && isFetchingMore == old(isFetchingMore)
    {
      retrying := true;
      match response {
        case Some(updated) =>
          selectedLog := Some(updated);
          logs := ListMerge.ReplaceByKey(logs, updated, LogKey);
        case None =>
      }
      retrying := false;
    }
  }

  /** A retry replaces at most the entry with the retried id: the list keeps
      its length and its ids, every other entry is unchanged, and when the
      log was listed its entry is now the updated one. */
  lemma RetryReplacesOnlyItsEntry(prev: seq<WebhookController.LogEntry>, updated: WebhookController.LogEntry, k: nat)
    requires k < |prev|
    ensures |ListMerge.ReplaceByKey(prev, updated, LogKey)| == |prev|
    ensures LogKey(prev[k]) != LogKey(updated) ==> ListMerge.ReplaceByKey(prev, updated, LogKey)[k] == prev[k]
    ensures LogKey(prev[k]) == LogKey(updated) ==> ListMerge.ReplaceByKey(prev, updated, LogKey)[k] == updated
    ensures ListMerge.Keys(ListMerge.ReplaceByKey(prev, updated, LogKey), LogKey) == ListMerge.Keys(prev, LogKey)
  {
    ListMerge.ReplaceByKeyKeepsKeys(prev, updated, LogKey);
  }

  /** Scrolling to the end of an unchanged store shows every log the filter
      selects exactly once, newest first. */
  lemma ScrolledToEndShowsAllLogs(logs: seq<CallbackLog>, orders: seq<PaymentOrderModel.PaymentOrder>, user: ObjectId,
                                  filter: string, shown: seq<WebhookController.LogEntry>, page: int)
    requires ListMerge.ShowsPages(shown, page, false, Listing(logs, orders, user, filter), LOGS_LIMIT)
    ensures shown == Listing(logs, orders, user, filter)
  {
    ListMerge.AtEndAllShown(shown, page, Listing(logs, orders, user, filter), LOGS_LIMIT);
  }
}
