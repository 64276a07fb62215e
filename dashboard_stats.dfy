/** The merchant dashboard (`getDashboardStats` in
    backend/services/orderService.js): totals per order status, successful
    collections for each of the last seven days, and the default provider
    account.

    The two aggregation pipelines are store queries. Their results are
    described by `IsStatusAggregation` and `IsDailyAggregation` (what any
    correct `$group` returns, in whatever order), and `GroupByStatus` and
    `GroupByDay` build one such result. Days are UTC day numbers
    (milliseconds divided by `DAY_MS`); the `YYYY-MM-DD` text of a day is
    one-to-one with its number, so the chart compares numbers. */
module DashboardStats {

  import opened Base
  import opened PaymentOrderModel
  import ProviderAccountModel
  import PaymentProviderModel

  /** The sum of the amounts of the orders satisfying `p` (`$sum: "$amount"`). */
  function SumAmount(s: seq<PaymentOrder>, p: PaymentOrder -> bool): real
  {
    if s == [] then 0.0 else (if p(s[0]) then s[0].amount else 0.0) + SumAmount(s[1..], p)
  }

  /** Two filters that agree on every order count and sum the same. */
  lemma {:induction false} AgreeingFilters(s: seq<PaymentOrder>, p: PaymentOrder -> bool, q: PaymentOrder -> bool)
    requires forall o :: o in s ==> p(o) == q(o)
    ensures Count(s, p) == Count(s, q) && SumAmount(s, p) == SumAmount(s, q)
  {
    if s != [] {
      assert s[0] in s;
      assert forall o :: o in s[1..] ==> o in s;
      AgreeingFilters(s[1..], p, q);
    }
  }

  /** Nothing matched sums to zero. */
  lemma {:induction false} SumOfNothing(s: seq<PaymentOrder>, p: PaymentOrder -> bool)
    requires Count(s, p) == 0
    ensures SumAmount(s, p) == 0.0
  {
    if s != [] {
      assert s[0] in s;
      assert forall o :: o in s[1..] ==> o in s;
      SumOfNothing(s[1..], p);
    }
  }

  // ------------------------------------------------------- status totals

  predicate OfStatus(o: PaymentOrder, user: ObjectId, status: OrderStatus)
  {
    o.user == user && o.status == status
  }

  function CountStatus(orders: seq<PaymentOrder>, user: ObjectId, status: OrderStatus): nat
  {
    Count(orders, (o: PaymentOrder) => OfStatus(o, user, status))
  }

  function SumStatus(orders: seq<PaymentOrder>, user: ObjectId, status: OrderStatus): real
  {
    SumAmount(orders, (o: PaymentOrder) => OfStatus(o, user, status))
  }

  /** One row of the first pipeline: `{ _id: status, count, totalAmount }`. */
  datatype StatusGroup = StatusGroup(id: OrderStatus, count: nat, totalAmount: real)

  /** `groups` is what grouping the user's orders by status returns: every
      row holds its status's count and total, and every status the user has
      orders in has a row. */
  ghost predicate IsStatusAggregation(groups: seq<StatusGroup>, orders: seq<PaymentOrder>, user: ObjectId)
  {
    && (forall i :: 0 <= i < |groups| ==>
          groups[i].count == CountStatus(orders, user, groups[i].id)
          && groups[i].totalAmount == SumStatus(orders, user, groups[i].id))
    && (forall s: OrderStatus :: CountStatus(orders, user, s) > 0 ==> exists i :: 0 <= i < |groups| && groups[i].id == s)
  }

  function GroupOf(orders: seq<PaymentOrder>, user: ObjectId, s: OrderStatus): StatusGroup
  {
    StatusGroup(s, CountStatus(orders, user, s), SumStatus(orders, user, s))
  }

  /** The `$group` stage's rows before empty groups are dropped, in a
      fixed order. */
  function AllGroups(orders: seq<PaymentOrder>, user: ObjectId): seq<StatusGroup>
  {
    [GroupOf(orders, user, Pending), GroupOf(orders, user, Success), GroupOf(orders, user, Failed)]
  }

  predicate Occurs(g: StatusGroup)
  {
    g.count > 0
  }

  /** A row per status that occurs, in a fixed order. */
  function GroupByStatus(orders: seq<PaymentOrder>, user: ObjectId): (r: seq<StatusGroup>)
    ensures IsStatusAggregation(r, orders, user)
  {
    GroupsAggregate(orders, user);
    Filter(AllGroups(orders, user), Occurs)
  }

  lemma AllGroupsAreGroups(orders: seq<PaymentOrder>, user: ObjectId)
    ensures forall g :: g in AllGroups(orders, user) ==> g == GroupOf(orders, user, g.id)
  {
  }

  lemma GroupsAggregate(orders: seq<PaymentOrder>, user: ObjectId)
    ensures IsStatusAggregation(Filter(AllGroups(orders, user), Occurs), orders, user)
  {
    var all := AllGroups(orders, user);
    var r := Filter(all, Occurs);
    AllGroupsAreGroups(orders, user);
    assert forall i :: 0 <= i < |r| ==> r[i] in all;
    forall st: OrderStatus | CountStatus(orders, user, st) > 0
      ensures exists i :: 0 <= i < |r| && r[i].id == st
    {
      var g := GroupOf(orders, user, st);
      match st
      case Pending => assert all[0] == g;
      case Success => assert all[1] == g;
      case Failed => assert all[2] == g;
      assert g in r;
      var i :| 0 <= i < |r| && r[i] == g;
    }
  }

  /** The totals the dashboard shows. */
  datatype Stats = Stats(totalCollection: real, successCount: nat, failedCount: nat, pendingCount: nat)

  /** The row `forEach` leaves in effect for a status: the last one. */
  function LastGroup(groups: seq<StatusGroup>, s: OrderStatus): (r: Option<StatusGroup>)
    ensures r.Some? ==> r.value in groups && r.value.id == s
    ensures r.None? ==> forall i :: 0 <= i < |groups| ==> groups[i].id != s
  {
    if groups == [] then None
    else if groups[|groups| - 1].id == s then Some(groups[|groups| - 1])
    else LastGroup(groups[..|groups| - 1], s)
  }

  function CountIn(g: Option<StatusGroup>): nat
  {
    if g.Some? then g.value.count else 0
  }

  function AmountIn(g: Option<StatusGroup>): real
  {
    if g.Some? then g.value.totalAmount else 0.0
  }

  /** The totals read off the rows; a status without a row stays 0. */
  function StatsOf(groups: seq<StatusGroup>): Stats
  {
    Stats(AmountIn(LastGroup(groups, Success)), CountIn(LastGroup(groups, Success)),
          CountIn(LastGroup(groups, Failed)), CountIn(LastGroup(groups, Pending)))
  }

  /** The `statusCounts.forEach` loop. */
  method TallyStatus(groups: seq<StatusGroup>) returns (stats: Stats)
    ensures stats == StatsOf(groups)
  {
    stats := Stats(0.0, 0, 0, 0);
    var k := 0;
    while k < |groups|
      invariant 0 <= k <= |groups|
      invariant stats == StatsOf(groups[..k])
    {
      var item := groups[k];
      assert groups[..k + 1][..k] == groups[..k];
      if item.id == Success {
        stats := stats.(totalCollection := item.totalAmount, successCount := item.count);
      } else if item.id == Failed {
        stats := stats.(failedCount := item.count);
      } else if item.id == Pending {
        stats := stats.(pendingCount := item.count);
      }
      k := k + 1;
    }
    assert groups[..k] == groups;
  }

  /** Read off any correct aggregation, in any row order, the totals are the
      user's successful amount and the user's order count in each status. */
  lemma StatsOfAggregation(groups: seq<StatusGroup>, orders: seq<PaymentOrder>, user: ObjectId)
    requires IsStatusAggregation(groups, orders, user)
    ensures StatsOf(groups) == Stats(SumStatus(orders, user, Success), CountStatus(orders, user, Success),
                                     CountStatus(orders, user, Failed), CountStatus(orders, user, Pending))
  {
    forall s: OrderStatus
      ensures CountIn(LastGroup(groups, s)) == CountStatus(orders, user, s)
      ensures AmountIn(LastGroup(groups, s)) == SumStatus(orders, user, s)
    {
      var g := LastGroup(groups, s);
      if g.Some? {
        var i :| 0 <= i < |groups| && groups[i] == g.value;
      } else {
        SumOfNothing(orders, (o: PaymentOrder) => OfStatus(o, user, s));
      }
    }
  }

  // ---------------------------------------------------------- daily chart

  function DayOf(t: Millis): int
  {
    t / DAY_MS
  }

  /** The second pipeline's `$match`: the user's successful orders created
      at or after `from`. */
  predicate InWindow(o: PaymentOrder, user: ObjectId, from: Millis)
  {
    o.user == user && o.status == Success && o.createdAt >= from
  }

  predicate OnDay(o: PaymentOrder, user: ObjectId, from: Millis, day: int)
  {
    InWindow(o, user, from) && DayOf(o.createdAt) == day
  }

  function CountDay(orders: seq<PaymentOrder>, user: ObjectId, from: Millis, day: int): nat
  {
    Count(orders, (o: PaymentOrder) => OnDay(o, user, from, day))
  }

  function SumDay(orders: seq<PaymentOrder>, user: ObjectId, from: Millis, day: int): real
  {
    SumAmount(orders, (o: PaymentOrder) => OnDay(o, user, from, day))
  }

  /** One row of the second pipeline: `{ _id: day, amount, count }`. */
  datatype DayGroup = DayGroup(day: int, amount: real, count: nat)

  ghost predicate IsDailyAggregation(daily: seq<DayGroup>, orders: seq<PaymentOrder>, user: ObjectId, from: Millis)
  {
    && (forall i :: 0 <= i < |daily| ==>
          daily[i].count == CountDay(orders, user, from, daily[i].day)
          && daily[i].amount == SumDay(orders, user, from, daily[i].day))
    && (forall d :: CountDay(orders, user, from, d) > 0 ==> exists i :: 0 <= i < |daily| && daily[i].day == d)
  }

  /** The days in `days`, each once. */
  function UniqueDays(days: seq<int>): (r: seq<int>)
    ensures forall d :: d in r <==> d in days
    ensures forall i, j :: 0 <= i < j < |r| ==> r[i] != r[j]
  {
    if days == [] then []
    else
      var rest := UniqueDays(days[1..]);
      if days[0] in rest then rest else [days[0]] + rest
  }

  /** A row per day on which the user has a successful order in the window. */
  function GroupByDay(orders: seq<PaymentOrder>, user: ObjectId, from: Millis): (r: seq<DayGroup>)
    ensures IsDailyAggregation(r, orders, user, from)
  {
    var m := Filter(orders, (o: PaymentOrder) => InWindow(o, user, from));
    var list := seq(|m|, k requires 0 <= k < |m| => DayOf(m[k].createdAt));
    var days := UniqueDays(list);
    var r := seq(|days|, k requires 0 <= k < |days| =>
                   DayGroup(days[k], SumDay(orders, user, from, days[k]), CountDay(orders, user, from, days[k])));
    assert forall d :: CountDay(orders, user, from, d) > 0 ==> exists i :: 0 <= i < |r| && r[i].day == d by {
      forall d | CountDay(orders, user, from, d) > 0
        ensures exists i :: 0 <= i < |r| && r[i].day == d
      {
        var o :| o in orders && OnDay(o, user, from, d);
        assert o in m;
        var k :| 0 <= k < |m| && m[k] == o;
        assert list[k] == d;
        assert d in list;
        var i :| 0 <= i < |days| && days[i] == d;
        assert r[i].day == d;
      }
    }
    r
  }

  /** One chart entry. */
  datatype ChartPoint = ChartPoint(date: int, amount: real, count: nat)

  /** The entry for `day`: the first row for that day, else zeros. */
  function PointFor(daily: seq<DayGroup>, day: int): ChartPoint
  {
    match Find(daily, (d: DayGroup) => d.day == day)
    case None => ChartPoint(day, 0.0, 0)
    case Some(g) => ChartPoint(day, g.amount, g.count)
  }

  /** The fill loop: seven entries, oldest first, ending with `today`. */
  method FillChart(daily: seq<DayGroup>, today: int) returns (chart: seq<ChartPoint>)
    ensures |chart| == 7
    ensures forall k :: 0 <= k < 7 ==> chart[k] == PointFor(daily, today - 6 + k)
  {
    chart := [];
    for i := 0 to 7
      invariant |chart| == i
      invariant forall k :: 0 <= k < i ==> chart[k] == PointFor(daily, today - 6 + k)
    {
      var date := today - (6 - i);
      var existingDay := Find(daily, (d: DayGroup) => d.day == date);
      chart := chart + [ChartPoint(date, if existingDay.Some? then existingDay.value.amount else 0.0,
                                   if existingDay.Some? then existingDay.value.count else 0)];
    }
  }

  /** Read off any correct daily aggregation, a day's entry holds the
      amount and number of the user's successful orders in the window on it. */
  lemma PointForAggregation(daily: seq<DayGroup>, orders: seq<PaymentOrder>, user: ObjectId, from: Millis, day: int)
    requires IsDailyAggregation(daily, orders, user, from)
    ensures PointFor(daily, day) == ChartPoint(day, SumDay(orders, user, from, day), CountDay(orders, user, from, day))
  {
    var g := Find(daily, (d: DayGroup) => d.day == day);
    if g.Some? {
      var i :| 0 <= i < |daily| && daily[i] == g.value;
    } else {
      assert forall i :: 0 <= i < |daily| ==> daily[i].day != day by {
        forall i | 0 <= i < |daily| ensures daily[i].day != day {
          assert daily[i] in daily;
        }
      }
      assert CountDay(orders, user, from, day) == 0;
      SumOfNothing(orders, (o: PaymentOrder) => OnDay(o, user, from, day));
    }
  }

  predicate SucceededOn(o: PaymentOrder, user: ObjectId, day: int)
  {
    o.user == user && o.status == Success && DayOf(o.createdAt) == day
  }

  /** The number and total of the user's successful orders created on `day`. */
  function SuccessCountOn(orders: seq<PaymentOrder>, user: ObjectId, day: int): nat
  {
    Count(orders, (o: PaymentOrder) => SucceededOn(o, user, day))
  }

  function SuccessSumOn(orders: seq<PaymentOrder>, user: ObjectId, day: int): real
  {
    SumAmount(orders, (o: PaymentOrder) => SucceededOn(o, user, day))
  }

  /** The window starts at midnight seven days back, so for any of the last
      seven days the window cuts nothing off: the day's figures are all of
      the user's successful orders created that day. */
  lemma WindowCoversChart(orders: seq<PaymentOrder>, user: ObjectId, today: int, day: int)
    requires today - 6 <= day <= today
    ensures CountDay(orders, user, (today - 7) * DAY_MS, day) == SuccessCountOn(orders, user, day)
    ensures SumDay(orders, user, (today - 7) * DAY_MS, day) == SuccessSumOn(orders, user, day)
  {
    forall o | o in orders
      ensures OnDay(o, user, (today - 7) * DAY_MS, day) == SucceededOn(o, user, day)
    {
      if SucceededOn(o, user, day) {
        assert o.createdAt >= day * DAY_MS;
      }
    }
    AgreeingFilters(orders, (o: PaymentOrder) => OnDay(o, user, (today - 7) * DAY_MS, day),
                    (o: PaymentOrder) => SucceededOn(o, user, day));
  }

  /** The chart drawn from a correct aggregation over the seven-day window
      shows, for each of the last seven days, all of that day's successful
      orders. */
  lemma ChartOfAggregation(daily: seq<DayGroup>, orders: seq<PaymentOrder>, user: ObjectId, today: int, k: int)
    requires IsDailyAggregation(daily, orders, user, (today - 7) * DAY_MS) && 0 <= k < 7
    ensures PointFor(daily, today - 6 + k)
         == ChartPoint(today - 6 + k, SuccessSumOn(orders, user, today - 6 + k), SuccessCountOn(orders, user, today - 6 + k))
  {
    PointForAggregation(daily, orders, user, (today - 7) * DAY_MS, today - 6 + k);
    WindowCoversChart(orders, user, today, today - 6 + k);
  }

  /** The chart the dashboard should show: for each of the seven days
      ending `today`, the sum and number of the user's successful orders
      created that day. */
  function WeekPoints(orders: seq<PaymentOrder>, user: ObjectId, today: int): (r: seq<ChartPoint>)
    ensures |r| == 7
    ensures forall k :: 0 <= k < 7 ==> r[k].date == today - 6 + k
  {
    seq(7, k requires 0 <= k < 7 => ChartPoint(today - 6 + k, SuccessSumOn(orders, user, today - 6 + k),
                                               SuccessCountOn(orders, user, today - 6 + k)))
  }

  /** The filled chart of the week's aggregation is that chart. */
  lemma ChartOfOrders(daily: seq<DayGroup>, chart: seq<ChartPoint>, orders: seq<PaymentOrder>, user: ObjectId, today: int)
    requires IsDailyAggregation(daily, orders, user, (today - 7) * DAY_MS)
    requires |chart| == 7 && forall k :: 0 <= k < 7 ==> chart[k] == PointFor(daily, today - 6 + k)
    ensures chart == WeekPoints(orders, user, today)
  {
    forall k | 0 <= k < 7
      ensures chart[k] == WeekPoints(orders, user, today)[k]
    {
      ChartOfAggregation(daily, orders, user, today, k);
    }
  }

  // ------------------------------------------------------------ dashboard

  /** What `getDashboardStats` returns. */
  datatype Dashboard = Dashboard(
    stats: Stats,
    chartData: seq<ChartPoint>,
    defaultAccount: Option<(ProviderAccountModel.UserProviderAccount, Option<PaymentProviderModel.PaymentProvider>)>)

  /** The status aggregation and its tally. */
  method StatusStats(orders: seq<PaymentOrder>, user: ObjectId) returns (stats: Stats)
    ensures stats == Stats(SumStatus(orders, user, Success), CountStatus(orders, user, Success),
                           CountStatus(orders, user, Failed), CountStatus(orders, user, Pending))
  {
    var statusCounts := GroupByStatus(orders, user);
    stats := TallyStatus(statusCounts);
    StatsOfAggregation(statusCounts, orders, user);
  }

  /** The daily aggregation since seven days ago and the filled chart. */
  method WeekChart(orders: seq<PaymentOrder>, user: ObjectId, now: Millis) returns (chartData: seq<ChartPoint>)
    ensures chartData == WeekPoints(orders, user, DayOf(now))
  {
    var today := DayOf(now);
    var sevenDaysAgo := (today - 7) * DAY_MS;
    var dailyStats := GroupByDay(orders, user, sevenDaysAgo);
    chartData := FillChart(dailyStats, today);
    ChartOfOrders(dailyStats, chartData, orders, user, today);
  }

  /** `getDashboardStats(user)` at time `now`. */
  method GetDashboardStats(orders: seq<PaymentOrder>, accounts: seq<ProviderAccountModel.UserProviderAccount>,
                           providers: seq<PaymentProviderModel.PaymentProvider>, user: ObjectId, now: Millis)
    returns (d: Dashboard)
    ensures d.stats == Stats(SumStatus(orders, user, Success), CountStatus(orders, user, Success),
                             CountStatus(orders, user, Failed), CountStatus(orders, user, Pending))
    ensures d.chartData == WeekPoints(orders, user, DayOf(now))
    ensures match ProviderAccountModel.FindDefault(accounts, user)
      case None => d.defaultAccount.None?
      case Some(a) => d.defaultAccount == Some((a, PaymentProviderModel.FindProvider(providers, a.provider)))
  {
    var stats := StatusStats(orders, user);
    var chartData := WeekChart(orders, user, now);

    var defaultAccount := ProviderAccountModel.FindDefault(accounts, user);
    var populated := if defaultAccount.Some?
      then Some((defaultAccount.value, PaymentProviderModel.FindProvider(providers, defaultAccount.value.provider)))
      else None;
    d := Dashboard(stats, chartData, populated);
  }
}
