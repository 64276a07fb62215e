/** Offset pagination as the list endpoints compute it
    (backend/services/orderService.js `fetchOrders`,
    backend/controllers/webhookController.js `getWebhookLogs`): `skip` is
    (page - 1) * limit, at most `limit` items are returned and `pages` is
    the ceiling of total / limit. */
module Paging {

  import opened Base

  /** The query string of a list endpoint: `{ status, page = 1, limit = 50 }`. */
  datatype ListQuery = ListQuery(status: Option<string>, page: Option<int>, limit: Option<int>)

  /** The database's refusal of a negative skip; it has no HTTP status
      code, so the error middleware answers 500. */
  const REFUSED_SKIP: AppError := AppError(None, "Skip value must be non-negative")

  const DEFAULT_PAGE: int := 1
  const DEFAULT_LIMIT: int := 50

  /** `page = 1`: the page asked for, or the default. Query values reach the
      service unvalidated, so any integer can arrive. */
  function PageParam(q: ListQuery): (r: int)
    ensures q.page.None? ==> r == DEFAULT_PAGE
    ensures q.page.Some? ==> r == q.page.value
  {
    if q.page.Some? then q.page.value else DEFAULT_PAGE
  }

  /** `limit = 50`: the limit asked for, or the default. */
  function LimitParam(q: ListQuery): (r: int)
    ensures q.limit.None? ==> r == DEFAULT_LIMIT
    ensures q.limit.Some? ==> r == q.limit.value
  {
    if q.limit.Some? then q.limit.value else DEFAULT_LIMIT
  }

  /** `(page - 1) * limit`, negative for page 0 and a positive limit. */
  function Skip(page: int, limit: int): (r: int)
    ensures page >= 1 && limit >= 0 ==> r >= 0
    ensures page == 1 || limit == 0 ==> r == 0
  {
    (page - 1) * limit
  }

  /** `Math.ceil(total / limit)`: the fewest pages of `limit` items that hold
      `total` items. */
  function Pages(total: nat, limit: int): (r: nat)
    requires limit >= 1
    ensures total <= r * limit
    ensures r == 0 || (r - 1) * limit < total
  {
    (total + limit - 1) / limit
  }

  /** A JavaScript number as `Math.ceil` can return it. */
  datatype PageCount = Finite(n: int) | Infinite | NotANumber

  /** `Math.ceil(total / limit)` for any limit: the ceiling for a positive
      limit, a non-positive ceiling for a negative one, `Infinity` when a
      positive total is divided by 0 and `NaN` for 0 / 0. */
  function PageCountOf(total: nat, limit: int): (r: PageCount)
    ensures limit >= 1 ==> r == Finite(Pages(total, limit))
    ensures limit == 0 ==> r == (if total == 0 then NotANumber else Infinite)
    ensures limit < 0 ==> r.Finite? && r.n <= 0 && r.n * limit <= total < (r.n - 1) * limit
  {
    if limit >= 1 then Finite(Pages(total, limit))
    else if limit == 0 then (if total == 0 then NotANumber else Infinite)
    else
      var q := total / -limit;
      assert q * -limit <= total < (q + 1) * -limit;
      Finite(-q)
  }

  /** `pages` as the list pages compare it: JSON has no `Infinity` or `NaN`
      and sends `null`, which `<` reads as 0. */
  function SentPages(c: PageCount): (r: int)
    ensures c.Finite? ==> r == c.n
    ensures !c.Finite? ==> r == 0
  {
    if c.Finite? then c.n else 0
  }

  function Abs(x: int): nat
  {
    if x < 0 then -x else x
  }

  /** What `.skip((page - 1) * limit).limit(limit)` returns from `items`, or
      `None` when the database refuses a negative skip. A limit of 0 sets no
      limit, and a negative limit -l returns at most l documents. */
  function Window<T>(items: seq<T>, page: int, limit: int): (r: Option<seq<T>>)
    ensures r.None? <==> Skip(page, limit) < 0
    ensures r.Some? ==> forall k :: 0 <= k < |r.value| ==>
      Skip(page, limit) + k < |items| && r.value[k] == items[Skip(page, limit) + k]
    ensures r.Some? ==> var rest := if Skip(page, limit) < |items| then |items| - Skip(page, limit) else 0;
      |r.value| == if limit == 0 || rest <= Abs(limit) then rest else Abs(limit)
    ensures page >= 1 && limit >= 1 ==> r == Some(PageOf(items, page, limit))
  {
    var s := Skip(page, limit);
    if s < 0 then None
    else
      var from := if s < |items| then s else |items|;
      var to := if limit == 0 || from + Abs(limit) >= |items| then |items| else from + Abs(limit);
      Some(items[from..to])
  }

  /** The page the store returns: `items` after skipping `Skip(page, limit)`,
      at most `limit` of them. */
  function PageOf<T>(items: seq<T>, page: int, limit: int): (r: seq<T>)
    requires page >= 1 && limit >= 1
    ensures |r| <= limit
    ensures forall k :: 0 <= k < |r| ==> Skip(page, limit) + k < |items| && r[k] == items[Skip(page, limit) + k]
    ensures |r| == limit || Skip(page, limit) + |r| == |items| || (|r| == 0 && Skip(page, limit) >= |items|)
  {
    var from := if Skip(page, limit) < |items| then Skip(page, limit) else |items|;
    var to := if from + limit < |items| then from + limit else |items|;
    items[from..to]
  }

  /** Every item lies on exactly the page `i / limit + 1`, at offset
      `i % limit`, and that page is one of the `Pages` pages. */
  lemma ItemOnItsPage<T>(items: seq<T>, limit: int, i: nat)
    requires limit >= 1 && i < |items|
    ensures var page := i / limit + 1;
      && 1 <= page <= Pages(|items|, limit)
      && i % limit < |PageOf(items, page, limit)|
      && PageOf(items, page, limit)[i % limit] == items[i]
  {
    var page := i / limit + 1;
    assert Skip(page, limit) == (i / limit) * limit;
    assert (i / limit) * limit + i % limit == i;
    MulStrict(Pages(|items|, limit), i / limit, limit);
  }

  /** The page holding `items[i]`, and its position there. */
  lemma PageHolding<T>(items: seq<T>, limit: int, i: nat) returns (page: int, at: nat)
    requires limit >= 1 && i < |items|
    ensures 1 <= page <= Pages(|items|, limit)
    ensures at < |PageOf(items, page, limit)| && PageOf(items, page, limit)[at] == items[i]
  {
    ItemOnItsPage(items, limit, i);
    page, at := i / limit + 1, i % limit;
  }

  lemma MulStrict(a: nat, b: nat, c: nat)
    requires a * c > b * c
    ensures a > b
  {
  }

  lemma MulMonotone(a: nat, b: nat, c: nat)
    requires a <= b
    ensures a * c <= b * c
  {
  }

  /** A page exists past `page` exactly when the items do not all fit in the
      first `page` pages: `page < pages` iff `page * limit < total`. */
  lemma MorePagesIff(total: nat, limit: int, page: int)
    requires limit >= 1 && page >= 1
    ensures page < Pages(total, limit) <==> page * limit < total
  {
    var r := Pages(total, limit);
    if page < r {
      MulMonotone(page, r - 1, limit);
    } else {
      MulMonotone(r, page, limit);
    }
  }
}
