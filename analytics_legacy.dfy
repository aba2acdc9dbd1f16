/**
 * The legacy analytics service, the one the analytics controller uses. It
 * asks the database one `count` or `aggregate` per metric and entity; each
 * such query is a filter-count or filter-sum over the raw rows here.
 *
 * Its daily metrics and dashboard read the same as the grouped service's
 * and are modelled once, in module AnalyticsCommon.
 */
module AnalyticsLegacy {
  import opened Wrappers
  import opened Records
  import opened Folds
  import opened Numeric
  import opened Sorting
  import opened ReportsService
  import opened AnalyticsCommon
  import opened AnalyticsMetrics

  // ------------------------------------------------------- operator statistics

  /** `callWhere = { operatorId: operator.id, dateCreate? }` */
  function CallsOf(q: AnalyticsQuery, id: int): Call -> bool
  {
    (c: Call) => CallInWindow(q, c) && c.operatorId == id
  }

  function CallsOfWith(q: AnalyticsQuery, id: int, status: string): Call -> bool
  {
    (c: Call) => CallInWindow(q, c) && c.operatorId == id && c.status == status
  }

  function TimedCallsOf(q: AnalyticsQuery, id: int): Call -> bool
  {
    (c: Call) => CallInWindow(q, c) && c.operatorId == id && c.duration.Some?
  }

  /** `orderWhere = { operatorNameId: operator.id, createDate? }` */
  function OrdersOf(q: AnalyticsQuery, id: int): Order -> bool
  {
    (o: Order) => OrderInWindow(q, o) && o.operatorNameId == Some(id)
  }

  function OrdersOfWith(q: AnalyticsQuery, id: int, status: string): Order -> bool
  {
    (o: Order) => OrderInWindow(q, o) && o.operatorNameId == Some(id) && o.statusOrder == status
  }

  function OrdersOfWithResult(q: AnalyticsQuery, id: int): Order -> bool
  {
    (o: Order) => OrderInWindow(q, o) && o.operatorNameId == Some(id) && o.result.Some?
  }

  /**
   * One operator's statistics from seven queries: three call counts, the
   * mean of the non-null call durations (`_avg.duration || 0`), two order
   * counts and the sum of the non-null results.
   */
  function LegacyOperatorEntry(q: AnalyticsQuery, op: Operator, calls: seq<Call>, orders: seq<Order>): (r: OperatorRow)
    ensures r.calls.total == CountIf(calls, CallsOf(q, op.id))
    ensures r.calls.answered == CountIf(calls, CallsOfWith(q, op.id, Answered))
    ensures r.calls.missed == CountIf(calls, CallsOfWith(q, op.id, Missed))
    ensures r.orders.total == CountIf(orders, OrdersOf(q, op.id))
    ensures r.orders.completed == CountIf(orders, OrdersOfWith(q, op.id, Closed))
    ensures r.orders.totalRevenue == SumIf(orders, OrdersOfWithResult(q, op.id), ResultOrZero)
    ensures r.calls.avgDuration == RoundedMean(SumIf(calls, TimedCallsOf(q, op.id), DurationOrZero), CountIf(calls, TimedCallsOf(q, op.id)))
    ensures r.calls.answered + r.calls.missed <= r.calls.total
    ensures 0.0 <= r.calls.answerRate <= 100.0
    ensures r.calls.answerRate == Round2(Percent(r.calls.answered, r.calls.total))
    ensures r.orders.conversionRate == Round2(Percent(r.orders.total, r.calls.answered))
    ensures r.orders.avgRevenue == RoundedMean(r.orders.totalRevenue, r.orders.completed)
    ensures r.orders.completed <= r.orders.total
  {
    var durations := SumIf(calls, TimedCallsOf(q, op.id), DurationOrZero);
    var timed := CountIf(calls, TimedCallsOf(q, op.id));
    assert Answered[0] != Missed[0];
    CountIfDisjoint(calls, CallsOfWith(q, op.id, Answered), CallsOfWith(q, op.id, Missed), CallsOf(q, op.id));
    CountIfMonotone(orders, OrdersOfWith(q, op.id, Closed), OrdersOf(q, op.id));
    OperatorRowOf(op,
      CountIf(calls, CallsOf(q, op.id)), CountIf(calls, CallsOfWith(q, op.id, Answered)),
      CountIf(calls, CallsOfWith(q, op.id, Missed)), Ratio(durations, timed),
      CountIf(orders, OrdersOf(q, op.id)), CountIf(orders, OrdersOfWith(q, op.id, Closed)),
      SumIf(orders, OrdersOfWithResult(q, op.id), ResultOrZero))
  }

  /** `getOperatorStatistics`: the statistics of every requested operator, in order. */
  function LegacyOperatorStatistics(q: AnalyticsQuery, operatorId: Option<int>, roster: seq<Operator>,
                                    calls: seq<Call>, orders: seq<Order>): (data: seq<OperatorRow>)
    ensures |data| == |Filter(roster, OperatorWanted(operatorId))|
    ensures forall i :: 0 <= i < |data| ==>
              data[i] == LegacyOperatorEntry(q, Filter(roster, OperatorWanted(operatorId))[i], calls, orders)
  {
    var operators := Filter(roster, OperatorWanted(operatorId));
    seq(|operators|, i requires 0 <= i < |operators| => LegacyOperatorEntry(q, operators[i], calls, orders))
  }

  // -------------------------------------------- city and campaign analytics

  /** `{ ...where, city }` or `{ ...where, rk }` */
  function OrdersIn(q: AnalyticsQuery, d: Dimension, k: string): Order -> bool
  {
    (o: Order) => OrderInWindow(q, o) && KeyOf(d, o) == k
  }

  function ClosedIn(q: AnalyticsQuery, d: Dimension, k: string): Order -> bool
  {
    (o: Order) => OrderInWindow(q, o) && KeyOf(d, o) == k && o.statusOrder == Closed
  }

  function ResultIn(q: AnalyticsQuery, d: Dimension, k: string): Order -> bool
  {
    (o: Order) => OrderInWindow(q, o) && KeyOf(d, o) == k && o.result.Some?
  }

  /**
   * `findMany({ where, select: { city: true }, distinct: ['city'] })` (or
   * `rk`): each value of the column among the selected orders, once.
   */
  function DistinctKeysOf(q: AnalyticsQuery, d: Dimension, orders: seq<Order>): (ks: seq<string>)
    ensures forall k :: k in ks <==> exists o :: o in orders && OrderInWindow(q, o) && KeyOf(d, o) == k
    ensures forall i, j :: 0 <= i < j < |ks| ==> ks[i] != ks[j]
  {
    var rows := Filter(orders, OrdersInWindow(q));
    var column := seq(|rows|, i requires 0 <= i < |rows| => KeyOf(d, rows[i]));
    assert forall k :: k in column <==> exists o :: o in rows && KeyOf(d, o) == k by {
      forall k | k in column
        ensures exists o :: o in rows && KeyOf(d, o) == k
      {
        var i :| 0 <= i < |column| && column[i] == k;
        assert rows[i] in rows;
      }
      forall k | exists o :: o in rows && KeyOf(d, o) == k
        ensures k in column
      {
        var o :| o in rows && KeyOf(d, o) == k;
        var i :| 0 <= i < |rows| && rows[i] == o;
        assert column[i] == k;
      }
    }
    forall k ensures k in Dedup(column) <==> k in column {
      DedupMember(column, k);
    }
    Dedup(column)
  }

  /** The three per-entity queries: completed orders never outnumber the entity's orders. */
  lemma EntityCounts(q: AnalyticsQuery, d: Dimension, k: string, orders: seq<Order>)
    ensures CountIf(orders, ClosedIn(q, d, k)) <= CountIf(orders, OrdersIn(q, d, k))
  {
    CountIfMonotone(orders, ClosedIn(q, d, k), OrdersIn(q, d, k));
  }

  /**
   * One city's analytics. The call totals are given: the service counts the
   * calls with the orders' `where`, which names the orders' creation column.
   */
  function LegacyCityEntry(q: AnalyticsQuery, city: string, callTotals: EntityCalls, orders: seq<Order>): (r: CityAnalytics)
    ensures r.orders.total == CountIf(orders, OrdersIn(q, ByCity, city))
    ensures r.orders.completed == CountIf(orders, ClosedIn(q, ByCity, city))
    ensures r.revenue.total == SumIf(orders, ResultIn(q, ByCity, city), ResultOrZero)
    ensures r.revenue.avg == RoundedMean(r.revenue.total, r.orders.completed)
    ensures 0 <= r.orders.completed <= r.orders.total
    ensures 0.0 <= r.orders.completionRate <= 100.0
    ensures r.orders.completionRate == Round2(Percent(r.orders.completed, r.orders.total))
    ensures r.calls == callTotals
    ensures r.conversionRate == Round2(Percent(r.orders.total, callTotals.answered))
  {
    EntityCounts(q, ByCity, city, orders);
    CityAnalyticsOf(city, callTotals, CountIf(orders, OrdersIn(q, ByCity, city)), CountIf(orders, ClosedIn(q, ByCity, city)),
                    SumIf(orders, ResultIn(q, ByCity, city), ResultOrZero))
  }

  function LegacyCityEntries(q: AnalyticsQuery, callTotals: EntityCalls, orders: seq<Order>): (rs: seq<CityAnalytics>)
    ensures |rs| == |DistinctKeysOf(q, ByCity, orders)|
    ensures forall i :: 0 <= i < |rs| ==> rs[i] == LegacyCityEntry(q, DistinctKeysOf(q, ByCity, orders)[i], callTotals, orders)
  {
    var cities := DistinctKeysOf(q, ByCity, orders);
    seq(|cities|, i requires 0 <= i < |cities| => LegacyCityEntry(q, cities[i], callTotals, orders))
  }

  /** `getCityAnalytics`: one entry per city of the selected orders, most orders first. */
  function LegacyCityAnalytics(q: AnalyticsQuery, callTotals: EntityCalls, orders: seq<Order>): (data: seq<CityAnalytics>)
    ensures SortedDesc(data, CityOrdersTotal)
    ensures multiset(data) == multiset(LegacyCityEntries(q, callTotals, orders))
  {
    SortDesc(LegacyCityEntries(q, callTotals, orders), CityOrdersTotal)
  }

  /** `_sum.result` of the campaign's orders with a result: null when there is none. */
  function ResultSum(q: AnalyticsQuery, rk: string, orders: seq<Order>): (s: Option<int>)
    ensures s.None? <==> CountIf(orders, ResultIn(q, ByCampaign, rk)) == 0
    ensures OrZero(s) == SumIf(orders, ResultIn(q, ByCampaign, rk), ResultOrZero)
  {
    if CountIf(orders, ResultIn(q, ByCampaign, rk)) == 0 then
      NothingSelected(orders, ResultIn(q, ByCampaign, rk), ResultOrZero);
      None
    else Some(SumIf(orders, ResultIn(q, ByCampaign, rk), ResultOrZero))
  }

  lemma {:induction false} NothingSelected<T>(xs: seq<T>, p: T -> bool, f: T -> int)
    requires CountIf(xs, p) == 0
    ensures SumIf(xs, p, f) == 0
  {
    if xs != [] {
      NothingSelected(xs[1..], p, f);
    }
  }

  /** `totalRevenue._sum.result && totalOrders > 0 ? Number(totalRevenue._sum.result) / totalOrders : 0` */
  function LegacyRoi(sum: Option<int>, totalOrders: int): (r: real)
    ensures r != 0.0 ==> sum.Some? && sum.value != 0 && totalOrders > 0
    ensures sum.Some? && sum.value != 0 && totalOrders > 0 ==> r * totalOrders as real == sum.value as real
  {
    if sum.Some? && sum.value != 0 && totalOrders > 0 then sum.value as real / totalOrders as real else 0.0
  }

  function LegacyCampaignEntry(q: AnalyticsQuery, rk: string, callTotals: EntityCalls, orders: seq<Order>): (r: CampaignAnalytics)
    ensures r.orders.total == CountIf(orders, OrdersIn(q, ByCampaign, rk))
    ensures r.orders.completed == CountIf(orders, ClosedIn(q, ByCampaign, rk))
    ensures r.revenue.total == SumIf(orders, ResultIn(q, ByCampaign, rk), ResultOrZero)
    ensures r.revenue.avg == RoundedMean(r.revenue.total, r.orders.completed)
    ensures 0 <= r.orders.completed <= r.orders.total
    ensures 0.0 <= r.orders.completionRate <= 100.0
    ensures r.orders.completionRate == Round2(Percent(r.orders.completed, r.orders.total))
    ensures r.calls == callTotals
    ensures r.conversionRate == Round2(Percent(r.orders.total, callTotals.answered))
    ensures r.revenue.roi == Round(LegacyRoi(ResultSum(q, rk, orders), r.orders.total))
  {
    EntityCounts(q, ByCampaign, rk, orders);
    var total := CountIf(orders, OrdersIn(q, ByCampaign, rk));
    var sum := ResultSum(q, rk, orders);
    CampaignAnalyticsOf(rk, callTotals, total, CountIf(orders, ClosedIn(q, ByCampaign, rk)), OrZero(sum), LegacyRoi(sum, total))
  }

  function LegacyCampaignEntries(q: AnalyticsQuery, callTotals: EntityCalls, orders: seq<Order>): (rs: seq<CampaignAnalytics>)
    ensures |rs| == |DistinctKeysOf(q, ByCampaign, orders)|
    ensures forall i :: 0 <= i < |rs| ==> rs[i] == LegacyCampaignEntry(q, DistinctKeysOf(q, ByCampaign, orders)[i], callTotals, orders)
  {
    var campaigns := DistinctKeysOf(q, ByCampaign, orders);
    seq(|campaigns|, i requires 0 <= i < |campaigns| => LegacyCampaignEntry(q, campaigns[i], callTotals, orders))
  }

  /** `getCampaignAnalytics`: one entry per campaign of the selected orders, most revenue first. */
  function LegacyCampaignAnalytics(q: AnalyticsQuery, callTotals: EntityCalls, orders: seq<Order>): (data: seq<CampaignAnalytics>)
    ensures SortedDesc(data, CampaignRevenueTotal)
    ensures multiset(data) == multiset(LegacyCampaignEntries(q, callTotals, orders))
  {
    SortDesc(LegacyCampaignEntries(q, callTotals, orders), CampaignRevenueTotal)
  }

  // ---------------------------------------------------- performance metrics

  function OrderStatusIs(status: string): Order -> bool
  {
    (o: Order) => o.statusOrder == status
  }

  function CallStatusIs(status: string): Call -> bool
  {
    (c: Call) => c.status == status
  }

  function Anything<T>(): T -> bool
  {
    (x: T) => true
  }

  /** `orders.filter(o => o.statusOrder === status).length` and the like, over the fetched rows. */
  function LegacyCounts(rows: seq<Order>, callRows: seq<Call>): (n: PerformanceCounts)
    ensures n.totalOrders == |rows| && n.totalCalls == |callRows|
    ensures n.completedOrders == CountIf(rows, OrderStatusIs(Closed))
    ensures n.answeredCalls == CountIf(callRows, CallStatusIs(Answered))
    ensures 0 <= n.completedOrders && 0 <= n.cancelledOrders && n.completedOrders + n.cancelledOrders <= n.totalOrders
    ensures 0 <= n.answeredCalls && 0 <= n.missedCalls && n.answeredCalls + n.missedCalls <= n.totalCalls
  {
    assert Closed[0] != Cancelled[0];
    assert Answered[0] != Missed[0];
    CountIfDisjoint(rows, OrderStatusIs(Closed), OrderStatusIs(Cancelled), Anything());
    CountIfAll(rows, Anything());
    CountIfDisjoint(callRows, CallStatusIs(Answered), CallStatusIs(Missed), Anything());
    CountIfAll(callRows, Anything());
    PerformanceCounts(|rows|, CountIf(rows, OrderStatusIs(Closed)), CountIf(rows, OrderStatusIs(Cancelled)),
                      |callRows|, CountIf(callRows, CallStatusIs(Answered)), CountIf(callRows, CallStatusIs(Missed)))
  }

  /**
   * `getPerformanceMetrics`: counts over every order and call of the period,
   * completion samples from the closed orders with a closing date, and
   * assignment samples from the orders with a master, of which only those
   * with a meeting date contribute.
   */
  function LegacyPerformance(q: AnalyticsQuery, orders: seq<Order>, calls: seq<Call>): (p: Performance)
    ensures p.orders.total == CountIf(orders, OrdersInWindow(q))
    ensures p.calls.total == CountIf(calls, CallsInWindow(q))
    ensures p.orders == PerformanceOrdersOf(p.orders.total,
                          CountIf(Filter(orders, OrdersInWindow(q)), OrderStatusIs(Closed)),
                          CountIf(Filter(orders, OrdersInWindow(q)), OrderStatusIs(Cancelled)))
    ensures p.calls == PerformanceCallsOf(p.calls.total,
                         CountIf(Filter(calls, CallsInWindow(q)), CallStatusIs(Answered)),
                         CountIf(Filter(calls, CallsInWindow(q)), CallStatusIs(Missed)))
    ensures p.finance == PerformanceFinanceOf(SumIf(orders, WithResult(q), ResultOrZero),
                                              SumIf(orders, WithExpenditure(q), ExpenditureOrZero))
    ensures p.conversion == PerformanceConversionOf(p.orders.total, p.calls.answered, p.orders.completionRate)
    ensures 0 <= p.orders.completed && 0 <= p.orders.cancelled && p.orders.completed + p.orders.cancelled <= p.orders.total
    ensures 0 <= p.calls.answered && 0 <= p.calls.missed && p.calls.answered + p.calls.missed <= p.calls.total
    ensures 0.0 <= p.orders.completionRate + p.orders.cancellationRate <= 100.0
    ensures 0.0 <= p.calls.answerRate + p.calls.missRate <= 100.0
    ensures p.timing.avgCompletionTime == Round1(Mean(Samples(Filter(orders, ClosedWithDate(q)), ClosedAt)))
    ensures p.timing.avgAssignTime == Round1(Mean(Samples(Filter(orders, WithMaster(q)), MeetingAt)))
    ensures |Samples(Filter(orders, ClosedWithDate(q)), ClosedAt)| == CountIf(orders, ClosedWithDate(q))
    ensures |Samples(Filter(orders, WithMaster(q)), MeetingAt)| == CountIf(orders, AssignedWithMeeting(q))
    ensures p.finance.profit == p.finance.revenue - p.finance.expenditure
    ensures p.finance.revenue <= 0 ==> p.finance.profitMargin == 0.0
  {
    var rows := Filter(orders, OrdersInWindow(q));
    var callRows := Filter(calls, CallsInWindow(q));
    FilterLength(orders, OrdersInWindow(q));
    FilterLength(calls, CallsInWindow(q));
    var completion := Filter(orders, ClosedWithDate(q));
    var mastered := Filter(orders, WithMaster(q));
    CountIfAll(completion, HasStamp(ClosedAt));
    FilterLength(orders, ClosedWithDate(q));
    CountIfOfFilter(orders, WithMaster(q), HasStamp(MeetingAt), AssignedWithMeeting(q));
    var n := LegacyCounts(rows, callRows);
    var p := PerformanceOf(n, Samples(completion, ClosedAt), Samples(mastered, MeetingAt),
                           SumIf(orders, WithResult(q), ResultOrZero), SumIf(orders, WithExpenditure(q), ExpenditureOrZero));
    assert p.calls.answered == n.answeredCalls && p.orders.total == n.totalOrders;
    p
  }
}
