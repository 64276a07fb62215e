/** The merchant dashboard's order list (frontend/src/pages/PaymentOrders.jsx):
    the infinite-scroll state of the list, the amount check before an order
    is created, and the shortened reference shown in each row. The HTTP
    answer of each request is an input: `None` stands for a request that
    threw. */
module PaymentOrdersPage {

  import opened Base
  import Paging
  import ListMerge
  import OrderService
  import OrderSchema
  import PaymentOrderModel

  /** `/payment/list?page=<pageNum>&limit=10`. */
  const ORDERS_LIMIT: int := 10

  function OrdersRequest(pageNum: int): Paging.ListQuery
  {
    Paging.ListQuery(None, Some(pageNum), Some(ORDERS_LIMIT))
  }

  type Answer = (seq<OrderService.OrderSummary>, OrderService.Pagination)

  /** `_id`, by which the list tells rows apart. */
  function OrderId(o: OrderService.OrderSummary): ObjectId
  {
    o.id
  }

  /** The user's orders as the server lists them, newest first, each in the
      shape the list endpoint returns. */
  function Listing(orders: seq<PaymentOrderModel.PaymentOrder>, user: ObjectId): (r: seq<OrderService.OrderSummary>)
    ensures |r| == Count(orders, (o: PaymentOrderModel.PaymentOrder) => OrderService.Listed(o, user, None))
  {
    var m := OrderService.Matching(orders, user, None);
    seq(|m|, k requires 0 <= k < |m| => OrderService.Summary(m[k]))
  }

  /** The answer for page `pageNum` of a listing. */
  function PageAnswer(items: seq<OrderService.OrderSummary>, pageNum: int): Answer
    requires pageNum >= 1
  {
    (Paging.PageOf(items, pageNum, ORDERS_LIMIT),
     OrderService.Pagination(|items|, pageNum, Paging.Finite(Paging.Pages(|items|, ORDERS_LIMIT))))
  }

  /** What the list endpoint answers to the page's request is exactly page
      `pageNum` of the user's listing. */
  lemma ServerAnswersPage(orders: seq<PaymentOrderModel.PaymentOrder>, user: ObjectId, pageNum: int)
    requires pageNum >= 1
    ensures OrderService.FetchOrders(orders, user, OrdersRequest(pageNum)) == Ok(PageAnswer(Listing(orders, user), pageNum))
  {
    var m := OrderService.Matching(orders, user, None);
    var l := Listing(orders, user);
    var p := Paging.PageOf(m, pageNum, ORDERS_LIMIT);
    var lp := Paging.PageOf(l, pageNum, ORDERS_LIMIT);
    assert |l| == |m|;
    assert |lp| == |p|;
    var f := OrderService.FetchOrders(orders, user, OrdersRequest(pageNum)).value;
    assert f.0 == seq(|p|, k requires 0 <= k < |p| => OrderService.Summary(p[k]));
    assert f.0 == lp by {
      forall k | 0 <= k < |p|
        ensures f.0[k] == lp[k]
      {
        assert p[k] == m[Paging.Skip(pageNum, ORDERS_LIMIT) + k];
        assert lp[k] == l[Paging.Skip(pageNum, ORDERS_LIMIT) + k];
      }
    }
  }

  /** Order ids are distinct in the store, so they are in the listing. */
  lemma ListingHasDistinctIds(orders: seq<PaymentOrderModel.PaymentOrder>, user: ObjectId)
    requires PaymentOrderModel.OrdersValid(orders)
    ensures ListMerge.DistinctKeys(Listing(orders, user), OrderId)
  {
    var p := (o: PaymentOrderModel.PaymentOrder) => OrderService.Listed(o, user, None);
    var id := (o: PaymentOrderModel.PaymentOrder) => o.id;
    ListMerge.FilterKeepsDistinct(orders, p, id);
    ListMerge.ReverseKeepsDistinct(Filter(orders, p), id);
    var m := OrderService.Matching(orders, user, None);
    assert m == Reverse(Filter(orders, p));
    var l := Listing(orders, user);
    assert forall k :: 0 <= k < |l| ==> OrderId(l[k]) == id(m[k]);
  }

  /** The page's state cells. */
  class OrdersPage {
    var orders: seq<OrderService.OrderSummary>
    var loading: bool
    var isFetchingMore: bool
    var page: int
    var hasMore: bool

    /** Showing the first `page` pages of `items`. */
    predicate Shows(items: seq<OrderService.OrderSummary>)
      reads this
    {
      ListMerge.ShowsPages(orders, page, hasMore, items, ORDERS_LIMIT)
    }

    constructor ()
      ensures orders == [] && loading && !isFetchingMore && page == 1 && hasMore
    {
      orders := [];
      loading := true;
      isFetchingMore := false;
      page := 1;
      hasMore := true;
    }

    /** `fetchOrders(pageNum, replace)`: the loading flag of the kind of
        fetch is raised, the answer merged into the list and `hasMore` taken
        from its pagination, and both flags are cleared at the end; a failed
        request changes nothing else. */
    method FetchOrders(pageNum: int, replace: bool, response: Option<Answer>)
      modifies this
      ensures response.Some? ==>
        && orders == ListMerge.MergePage(old(orders), response.value.0, OrderId, pageNum, replace)
        && hasMore == ListMerge.HasMore(response.value.1.page, Paging.SentPages(response.value.1.pages))
      ensures response.None? ==> orders == old(orders) && hasMore == old(hasMore)
      ensures !loading && !isFetchingMore && page == old(page)
    {
      if replace {
        loading := true;
      } else {
        isFetchingMore := true;
      }
      match response {
        case Some(data) =>
          orders := ListMerge.MergePage(orders, data.0, OrderId, pageNum, replace);
          hasMore := ListMerge.HasMore(data.1.page, Paging.SentPages(data.1.pages));
        case None =>
      }
      loading := false;
      isFetchingMore := false;
    }

    /** The initial load: `fetchOrders(1, true)`. Answered with page 1 of a
        listing, the page shows that page. */
    method InitialLoad(ghost items: seq<OrderService.OrderSummary>, response: Option<Answer>)
      requires page == 1
      modifies this
      ensures response.Some? ==> orders == response.value.0
      ensures response.None? ==> orders == old(orders) && hasMore == old(hasMore)
      ensures !loading && !isFetchingMore && page == 1
      ensures response == Some(PageAnswer(items, 1)) ==> Shows(items)
    {
      FetchOrders(1, true, response);
      if response == Some(PageAnswer(items, 1)) {
        ListMerge.FirstPageShows(old(orders), items, OrderId, ORDERS_LIMIT);
      }
    }

    /** The last row scrolled into view: when nothing is loading and more
        pages exist, the page number goes up by one and that page is
        fetched for appending. Answered with the next page of a listing with
        distinct ids, the page then shows one more page of it. */
    method ReachLastRow(ghost items: seq<OrderService.OrderSummary>, response: Option<Answer>)
      requires page >= 1
      modifies this
      ensures page >= 1
      ensures !old(hasMore && !loading && !isFetchingMore) ==>
        orders == old(orders) && page == old(page) && hasMore == old(hasMore)
        && loading == old(loading) && isFetchingMore == old(isFetchingMore)
      ensures old(hasMore && !loading && !isFetchingMore) ==>
        && page == old(page) + 1 && !loading && !isFetchingMore
        && (response.Some? ==>
              && orders == ListMerge.MergePage(old(orders), response.value.0, OrderId, old(page) + 1, false)
              && hasMore == ListMerge.HasMore(response.value.1.page, Paging.SentPages(response.value.1.pages)))
        && (response.None? ==> orders == old(orders) && hasMore == old(hasMore))
      ensures (old(Shows(items)) && ListMerge.DistinctKeys(items, OrderId)
               && response == Some(PageAnswer(items, old(page) + 1))) ==> Shows(items)
    {
      if hasMore && !loading && !isFetchingMore {
        if Shows(items) && ListMerge.DistinctKeys(items, OrderId) && response == Some(PageAnswer(items, page + 1)) {
          ListMerge.NextPageExtends(orders, page, hasMore, items, OrderId, ORDERS_LIMIT);
        }
        page := page + 1;
        if page > 1 {
          FetchOrders(page, false, response);
        }
      }
    }
  }

  /** Scrolling to the end of an unchanged store shows every order of the
      user exactly once, newest first. */
  lemma ScrolledToEndShowsAllOrders(orders: seq<PaymentOrderModel.PaymentOrder>, user: ObjectId,
                                    shown: seq<OrderService.OrderSummary>, page: int)
    requires ListMerge.ShowsPages(shown, page, false, Listing(orders, user), ORDERS_LIMIT)
    ensures shown == Listing(orders, user)
    ensures |shown| == Count(orders, (o: PaymentOrderModel.PaymentOrder) => OrderService.Listed(o, user, None))
  {
    ListMerge.AtEndAllShown(shown, page, Listing(orders, user), ORDERS_LIMIT);
  }

  // ------------------------------------------------------- creating an order

  /** `!amount || isNaN(amount) || parseFloat(amount) <= 0` refuses the
      form. `toNumber` is JavaScript's `Number` conversion and `parseFloat`
      its prefix parser; `None` stands for NaN. A NaN from `parseFloat`
      compares false with 0, so it does not refuse. */
  predicate AmountAccepted(amount: string, toNumber: string -> Option<real>, parseFloat: string -> Option<real>)
  {
    !(amount == "" || toNumber(amount).None? || (parseFloat(amount).Some? && parseFloat(amount).value <= 0.0))
  }

  /** An amount that JavaScript reads as 0 but `parseFloat` cannot parse at
      all (blank input such as " ") passes the check, and the form then
      posts NaN. */
  lemma BlankAmountPasses(toNumber: string -> Option<real>, parseFloat: string -> Option<real>)
    requires toNumber(" ") == Some(0.0) && parseFloat(" ").None?
    ensures AmountAccepted(" ", toNumber, parseFloat)
    ensures parseFloat(" ").None?
  {
  }

  /** The check as intended: the amount posted, `parseFloat(amount)`, is a
      number greater than zero. */
  predicate AmountAcceptedCorrected(amount: string, toNumber: string -> Option<real>, parseFloat: string -> Option<real>)
  {
    AmountAccepted(amount, toNumber, parseFloat) && parseFloat(amount).Some?
  }

  /** The body `handleCreateOrder` posts: the parsed amount, the note, and
      the reference only when one was typed (`clientRef || undefined`). */
  function PostedBody(amount: real, note: string, clientRef: string): (b: OrderSchema.OrderBody)
    ensures b.amount == amount && b.note == Some(note) && b.redirectUri.None?
    ensures b.clientRef.Some? <==> clientRef != ""
    ensures b.clientRef.Some? ==> b.clientRef.value == clientRef
  {
    OrderSchema.OrderBody(amount, if clientRef == "" then None else Some(clientRef), Some(note), None)
  }

  /** Every form the corrected check accepts is a body the dashboard's
      create schema accepts, and it is refused exactly when `parseFloat`
      gives a number that is not above zero or the text is not numeric. */
  lemma AcceptedFormIsValidBody(amount: string, note: string, clientRef: string,
                                toNumber: string -> Option<real>, parseFloat: string -> Option<real>,
                                isUrl: string -> bool)
    requires AmountAcceptedCorrected(amount, toNumber, parseFloat)
    ensures parseFloat(amount).value > 0.0
    ensures OrderSchema.CreateOrderDashboardOk(PostedBody(parseFloat(amount).value, note, clientRef), isUrl)
  {
  }

  /** A refused form never reaches the server with a positive parsed
      amount unless the text was empty or not numeric. */
  lemma RefusedAmounts(amount: string, toNumber: string -> Option<real>, parseFloat: string -> Option<real>)
    ensures !AmountAccepted(amount, toNumber, parseFloat) <==>
      amount == "" || toNumber(amount).None? || (parseFloat(amount).Some? && parseFloat(amount).value <= 0.0)
    ensures AmountAcceptedCorrected(amount, toNumber, parseFloat) ==> AmountAccepted(amount, toNumber, parseFloat)
  {
  }

  // -------------------------------------------------------- reference column

  const REF_SHOWN: nat := 20
  const ELLIPSIS: string := "..."

  /** The reference column: a reference longer than 20 characters is cut to
      its first 20 and followed by "...". */
  function ShortRef(ref: string): (r: string)
    ensures |r| <= REF_SHOWN + |ELLIPSIS|
    ensures |ref| <= REF_SHOWN ==> r == ref
    ensures |ref| > REF_SHOWN ==> |r| == REF_SHOWN + |ELLIPSIS| && r[..REF_SHOWN] == ref[..REF_SHOWN]
  {
    if |ref| > REF_SHOWN then ref[..REF_SHOWN] + ELLIPSIS else ref
  }

  /** Short references are shown as they are, so two different short
      references never look alike; two long ones look alike exactly when
      their first 20 characters agree. */
  lemma ShortRefDistinguishes(a: string, b: string)
    ensures |a| <= REF_SHOWN && |b| <= REF_SHOWN ==> (ShortRef(a) == ShortRef(b) <==> a == b)
    ensures |a| > REF_SHOWN && |b| > REF_SHOWN ==> (ShortRef(a) == ShortRef(b) <==> a[..REF_SHOWN] == b[..REF_SHOWN])
  {
    if |a| > REF_SHOWN && |b| > REF_SHOWN && ShortRef(a) == ShortRef(b) {
      assert ShortRef(a)[..REF_SHOWN] == ShortRef(b)[..REF_SHOWN];
    }
  }
}
