/**
 * The per-entity metric formulas of the analytics services. The legacy and
 * the grouped service obtain their counts differently (one query per entity,
 * or lookups in tables built from grouped rows) but turn them into output
 * records with the same arithmetic: every ratio is guarded by its
 * denominator, averages are rounded, rates are rounded to two places (the
 * performance rates are not rounded at all).
 */
module AnalyticsMetrics {
  import opened Wrappers
  import opened Records
  import opened Folds
  import opened Numeric
  import opened AnalyticsCommon

  // ------------------------------------------------------- operator statistics

  /** `if (operatorId)`: an operator id is given and it is not 0. */
  predicate IdGiven(operatorId: Option<int>)
  {
    operatorId.Some? && operatorId.value != 0
  }

  /** `where: operatorId ? { id: operatorId } : {}` on the operators. */
  function OperatorWanted(operatorId: Option<int>): Operator -> bool
  {
    (op: Operator) => !IdGiven(operatorId) || op.id == operatorId.value
  }

  datatype OperatorCalls = OperatorCalls(total: int, answered: int, missed: int, avgDuration: int, answerRate: real)
  datatype OperatorOrders = OperatorOrders(total: int, completed: int, conversionRate: real, totalRevenue: int, avgRevenue: int)
  datatype OperatorRow = OperatorRow(operatorId: int, operatorName: string, status: string,
                                     calls: OperatorCalls, orders: OperatorOrders)

  /**
   * One operator's statistics from its call and order counts, the mean call
   * duration and the revenue: `answeredCalls / totalCalls * 100` and
   * `totalOrders / answeredCalls * 100`, each 0 when its denominator is 0.
   */
  function OperatorRowOf(op: Operator, totalCalls: int, answered: int, missed: int, avgDuration: real,
                         totalOrders: int, completed: int, revenue: int): (r: OperatorRow)
    ensures r.operatorId == op.id && r.operatorName == op.name && r.status == op.statusWork
    ensures r.calls.total == totalCalls && r.calls.answered == answered && r.calls.missed == missed
    ensures r.orders.total == totalOrders && r.orders.completed == completed && r.orders.totalRevenue == revenue
    ensures r.calls.avgDuration == Round(avgDuration)
    ensures totalCalls <= 0 ==> r.calls.answerRate == 0.0
    ensures 0 <= answered <= totalCalls ==> 0.0 <= r.calls.answerRate <= 100.0
    ensures r.calls.answerRate == Round2(Percent(answered, totalCalls))
    ensures answered <= 0 ==> r.orders.conversionRate == 0.0
    ensures r.orders.conversionRate == Round2(Percent(totalOrders, answered))
    ensures r.orders.avgRevenue == RoundedMean(revenue, completed)
  {
    var answerRate := Percent(answered, totalCalls);
    var conversionRate := Percent(totalOrders, answered);
    assert 0 <= answered <= totalCalls ==> 0.0 <= Round2(answerRate) <= 100.0 by {
      if 0 <= answered <= totalCalls {
        Round2Percent(answerRate);
      }
    }
    Round2Zero();
    OperatorRow(op.id, op.name, op.statusWork,
      OperatorCalls(totalCalls, answered, missed, Round(avgDuration), Round2(answerRate)),
      OperatorOrders(totalOrders, completed, Round2(conversionRate), revenue, RoundedMean(revenue, completed)))
  }

  // -------------------------------------------- city and campaign analytics

  /** The call totals of the period, the same for every city and campaign. */
  datatype EntityCalls = EntityCalls(total: int, answered: int)
  datatype EntityOrders = EntityOrders(total: int, completed: int, completionRate: real)
  datatype CityRevenue = CityRevenue(total: int, avg: int)
  datatype CityAnalytics = CityAnalytics(city: string, calls: EntityCalls, orders: EntityOrders,
                                         revenue: CityRevenue, conversionRate: real)
  datatype CampaignRevenue = CampaignRevenue(total: int, avg: int, roi: int)
  datatype CampaignAnalytics = CampaignAnalytics(campaign: string, calls: EntityCalls, orders: EntityOrders,
                                                 revenue: CampaignRevenue, conversionRate: real)

  function CallsInWindow(q: AnalyticsQuery): Call -> bool
  {
    (c: Call) => CallInWindow(q, c)
  }

  function AnsweredInWindow(q: AnalyticsQuery): Call -> bool
  {
    (c: Call) => CallInWindow(q, c) && c.status == Answered
  }

  /** The two `call.count` queries: all calls of the period and its answered calls. */
  function PeriodCalls(q: AnalyticsQuery, calls: seq<Call>): (r: EntityCalls)
    ensures r.total == CountIf(calls, CallsInWindow(q))
    ensures r.answered == CountIf(calls, AnsweredInWindow(q))
    ensures 0 <= r.answered <= r.total
  {
    CountIfMonotone(calls, AnsweredInWindow(q), CallsInWindow(q));
    EntityCalls(CountIf(calls, CallsInWindow(q)), CountIf(calls, AnsweredInWindow(q)))
  }

  /** The order column the city and campaign analytics group by. */
  datatype Dimension = ByCity | ByCampaign

  function KeyOf(d: Dimension, o: Order): string
  {
    match d
    case ByCity => o.city
    case ByCampaign => o.rk
  }

  function OrdersInWindow(q: AnalyticsQuery): Order -> bool
  {
    (o: Order) => OrderInWindow(q, o)
  }

  /** The sort key of the city analytics. */
  function CityOrdersTotal(c: CityAnalytics): int { c.orders.total }

  /** The sort key of the campaign analytics. */
  function CampaignRevenueTotal(c: CampaignAnalytics): int { c.revenue.total }

  /** The order numbers shared by cities and campaigns: completed over total, as a percentage. */
  function EntityOrdersOf(totalOrders: int, completed: int): (r: EntityOrders)
    ensures r.total == totalOrders && r.completed == completed
    ensures totalOrders <= 0 ==> r.completionRate == 0.0
    ensures 0 <= completed <= totalOrders ==> 0.0 <= r.completionRate <= 100.0
    ensures r.completionRate == Round2(Percent(completed, totalOrders))
  {
    var completionRate := Percent(completed, totalOrders);
    assert 0 <= completed <= totalOrders ==> 0.0 <= Round2(completionRate) <= 100.0 by {
      if 0 <= completed <= totalOrders {
        Round2Percent(completionRate);
      }
    }
    Round2Zero();
    EntityOrders(totalOrders, completed, Round2(completionRate))
  }

  /** One city's analytics from its order counts and revenue and the period's call totals. */
  function CityAnalyticsOf(city: string, calls: EntityCalls, totalOrders: int, completed: int, revenue: int): (r: CityAnalytics)
    ensures r.city == city && r.calls == calls && r.orders == EntityOrdersOf(totalOrders, completed)
    ensures r.revenue.total == revenue
    ensures r.revenue.avg == RoundedMean(revenue, completed)
    ensures calls.answered <= 0 ==> r.conversionRate == 0.0
    ensures r.conversionRate == Round2(Percent(totalOrders, calls.answered))
  {
    Round2Zero();
    CityAnalytics(city, calls, EntityOrdersOf(totalOrders, completed),
      CityRevenue(revenue, RoundedMean(revenue, completed)),
      Round2(Percent(totalOrders, calls.answered)))
  }

  /**
   * One campaign's analytics. The revenue per order `roi` is computed by the
   * caller, since the two services guard it differently; it is rounded here.
   */
  function CampaignAnalyticsOf(rk: string, calls: EntityCalls, totalOrders: int, completed: int,
                               revenue: int, roi: real): (r: CampaignAnalytics)
    ensures r.campaign == rk && r.calls == calls && r.orders == EntityOrdersOf(totalOrders, completed)
    ensures r.revenue.total == revenue
    ensures r.revenue.avg == RoundedMean(revenue, completed)
    ensures r.revenue.roi == Round(roi)
    ensures calls.answered <= 0 ==> r.conversionRate == 0.0
    ensures r.conversionRate == Round2(Percent(totalOrders, calls.answered))
  {
    Round2Zero();
    CampaignAnalytics(rk, calls, EntityOrdersOf(totalOrders, completed),
      CampaignRevenue(revenue, RoundedMean(revenue, completed), Round(roi)),
      Round2(Percent(totalOrders, calls.answered)))
  }

  // ---------------------------------------------------- performance metrics

  /** The two timestamps a timing sample measures from `createDate` to. */
  datatype Stamp = ClosedAt | MeetingAt

  function StampOf(s: Stamp, o: Order): Option<Instant>
  {
    match s
    case ClosedAt => o.closingData
    case MeetingAt => o.dateMeeting
  }

  function HasStamp(s: Stamp): Order -> bool
  {
    (o: Order) => StampOf(s, o).Some?
  }

  /** `(to.getTime() - from.getTime()) / (1000 * 60 * 60)`: hours between two instants. */
  function HoursBetween(from: Instant, to: Instant): real
  {
    (to - from) as real / MsPerHour as real
  }

  /**
   * `rows.map(o => o.stamp && o.createDate ? hours(o.createDate, o.stamp) : null)
   *      .filter(t => t !== null)`: one sample per row that has the timestamp.
   */
  function Samples(rows: seq<Order>, s: Stamp): (ts: seq<real>)
    ensures |ts| == CountIf(rows, HasStamp(s))
    ensures forall t :: t in ts ==>
              exists o :: o in rows && StampOf(s, o).Some? && t == HoursBetween(o.createDate, StampOf(s, o).value)
  {
    if rows == [] then []
    else
      var head := if StampOf(s, rows[0]).Some? then [HoursBetween(rows[0].createDate, StampOf(s, rows[0]).value)] else [];
      var rest := Samples(rows[1..], s);
      assert forall o :: o in rows[1..] ==> o in rows;
      head + rest
  }

  /** Every sample of rows whose timestamp is not before their creation is non-negative. */
  lemma {:induction false} SamplesNonNegative(rows: seq<Order>, s: Stamp)
    requires forall o :: o in rows && StampOf(s, o).Some? ==> StampOf(s, o).value >= o.createDate
    ensures forall i :: 0 <= i < |Samples(rows, s)| ==> Samples(rows, s)[i] >= 0.0
  {
    var ts := Samples(rows, s);
    forall i | 0 <= i < |ts|
      ensures ts[i] >= 0.0
    {
      assert ts[i] in ts;
      var o :| o in rows && StampOf(s, o).Some? && ts[i] == HoursBetween(o.createDate, StampOf(s, o).value);
    }
  }

  lemma {:induction false} SamplesAppend(a: seq<Order>, b: seq<Order>, s: Stamp)
    ensures Samples(a + b, s) == Samples(a, s) + Samples(b, s)
  {
    if a != [] {
      assert (a + b)[0] == a[0] && (a + b)[1..] == a[1..] + b;
      var head := if StampOf(s, a[0]).Some? then [HoursBetween(a[0].createDate, StampOf(s, a[0]).value)] else [];
      assert Samples(a + b, s) == head + Samples(a[1..] + b, s);
      assert Samples(a, s) == head + Samples(a[1..], s);
      SamplesAppend(a[1..], b, s);
      assert head + (Samples(a[1..], s) + Samples(b, s)) == (head + Samples(a[1..], s)) + Samples(b, s);
    } else {
      assert a + b == b;
    }
  }

  /**
   * Rows without the timestamp give no sample, so narrowing a selection to
   * the rows that have it (`pq` is `p` and the timestamp present) keeps the
   * samples.
   */
  lemma {:induction false} SamplesOfNarrowed(rows: seq<Order>, p: Order -> bool, pq: Order -> bool, s: Stamp)
    requires forall o :: pq(o) == (p(o) && StampOf(s, o).Some?)
    ensures Samples(Filter(rows, p), s) == Samples(Filter(rows, pq), s)
  {
    if rows != [] {
      var o := rows[0];
      SamplesOfNarrowed(rows[1..], p, pq, s);
      SamplesAppend(if p(o) then [o] else [], Filter(rows[1..], p), s);
      SamplesAppend(if pq(o) then [o] else [], Filter(rows[1..], pq), s);
    }
  }

  function WithResult(q: AnalyticsQuery): Order -> bool
  {
    (o: Order) => OrderInWindow(q, o) && o.result.Some?
  }

  function WithExpenditure(q: AnalyticsQuery): Order -> bool
  {
    (o: Order) => OrderInWindow(q, o) && o.expenditure.Some?
  }

  function ExpenditureOrZero(o: Order): int { OrZero(o.expenditure) }

  /** `{ ...where, statusOrder: 'Закрыт', closingData: { not: null } }` */
  function ClosedWithDate(q: AnalyticsQuery): Order -> bool
  {
    (o: Order) => OrderInWindow(q, o) && o.statusOrder == Closed && o.closingData.Some?
  }

  /** `{ ...where, masterId: { not: null }, dateMeeting: { not: null } }` */
  function AssignedWithMeeting(q: AnalyticsQuery): Order -> bool
  {
    (o: Order) => OrderInWindow(q, o) && o.masterId.Some? && o.dateMeeting.Some?
  }

  /** `{ ...where, masterId: { not: null } }` */
  function WithMaster(q: AnalyticsQuery): Order -> bool
  {
    (o: Order) => OrderInWindow(q, o) && o.masterId.Some?
  }

  datatype PerformanceOrders = PerformanceOrders(total: int, completed: int, cancelled: int,
                                                 completionRate: real, cancellationRate: real)
  datatype PerformanceCalls = PerformanceCalls(total: int, answered: int, missed: int, answerRate: real, missRate: real)
  datatype PerformanceTiming = PerformanceTiming(avgCompletionTime: real, avgAssignTime: real)
  datatype PerformanceFinance = PerformanceFinance(revenue: int, expenditure: int, profit: int, profitMargin: real)
  datatype PerformanceConversion = PerformanceConversion(callToOrder: real, orderToCompletion: real)
  datatype Performance = Performance(orders: PerformanceOrders, calls: PerformanceCalls, timing: PerformanceTiming,
                                     finance: PerformanceFinance, conversion: PerformanceConversion)

  /** The six counts the performance metrics are computed from. */
  datatype PerformanceCounts = PerformanceCounts(totalOrders: int, completedOrders: int, cancelledOrders: int,
                                                 totalCalls: int, answeredCalls: int, missedCalls: int)

  /** The order rates of the performance metrics: unrounded shares of the order total, 0 without orders. */
  function PerformanceOrdersOf(total: int, completed: int, cancelled: int): (r: PerformanceOrders)
    ensures r.total == total && r.completed == completed && r.cancelled == cancelled
    ensures total <= 0 ==> r.completionRate == 0.0 && r.cancellationRate == 0.0
    ensures total > 0 ==> r.completionRate * total as real == 100.0 * completed as real
    ensures total > 0 ==> r.cancellationRate * total as real == 100.0 * cancelled as real
    ensures 0 <= completed && 0 <= cancelled && completed + cancelled <= total ==>
              0.0 <= r.completionRate + r.cancellationRate <= 100.0
  {
    PercentSum(completed, cancelled, total);
    PerformanceOrders(total, completed, cancelled, Percent(completed, total), Percent(cancelled, total))
  }

  /** The call rates of the performance metrics: unrounded shares of the call total, 0 without calls. */
  function PerformanceCallsOf(total: int, answered: int, missed: int): (r: PerformanceCalls)
    ensures r.total == total && r.answered == answered && r.missed == missed
    ensures total <= 0 ==> r.answerRate == 0.0 && r.missRate == 0.0
    ensures total > 0 ==> r.answerRate * total as real == 100.0 * answered as real
    ensures total > 0 ==> r.missRate * total as real == 100.0 * missed as real
    ensures 0 <= answered && 0 <= missed && answered + missed <= total ==>
              0.0 <= r.answerRate + r.missRate <= 100.0
  {
    PercentSum(answered, missed, total);
    PerformanceCalls(total, answered, missed, Percent(answered, total), Percent(missed, total))
  }

  /**
   * The finance block: `profit = revenue - expenditure` and the margin
   * rounded to two places, 0 unless the revenue is positive.
   */
  function PerformanceFinanceOf(revenue: int, expenditure: int): (r: PerformanceFinance)
    ensures r.revenue == revenue && r.expenditure == expenditure
    ensures r.profit == revenue - expenditure
    ensures revenue <= 0 ==> r.profitMargin == 0.0
    ensures r.profitMargin == Round2(Percent(revenue - expenditure, revenue))
    ensures revenue > 0 && expenditure == 0 ==> r.profitMargin == 100.0
  {
    Round2Zero();
    assert revenue > 0 && expenditure == 0 ==> Round2(Percent(revenue - expenditure, revenue)) == 100.0 by {
      if revenue > 0 && expenditure == 0 {
        WholeMargin(revenue);
      }
    }
    PerformanceFinance(revenue, expenditure, revenue - expenditure, Round2(Percent(revenue - expenditure, revenue)))
  }

  /** The conversion block: orders per answered call as a percentage (0 without one), and the completion rate. */
  function PerformanceConversionOf(totalOrders: int, answered: int, completionRate: real): (r: PerformanceConversion)
    ensures answered <= 0 ==> r.callToOrder == 0.0
    ensures answered > 0 ==> r.callToOrder * answered as real == 100.0 * totalOrders as real
    ensures r.orderToCompletion == completionRate
  {
    PerformanceConversion(Percent(totalOrders, answered), completionRate)
  }

  /**
   * The performance metrics from the counts, the timing samples and the
   * revenue and expenditure sums: unrounded rates guarded by their
   * denominators, mean times rounded to one place (0 without samples),
   * `profit = revenue - expenditure` and a margin that is 0 unless the
   * revenue is positive.
   */
  function PerformanceOf(n: PerformanceCounts, completionTimes: seq<real>, assignTimes: seq<real>,
                         revenue: int, expenditure: int): (p: Performance)
    ensures p.orders == PerformanceOrdersOf(n.totalOrders, n.completedOrders, n.cancelledOrders)
    ensures p.calls == PerformanceCallsOf(n.totalCalls, n.answeredCalls, n.missedCalls)
    ensures p.finance == PerformanceFinanceOf(revenue, expenditure)
    ensures p.conversion == PerformanceConversionOf(n.totalOrders, n.answeredCalls, p.orders.completionRate)
    ensures p.timing.avgCompletionTime == Round1(Mean(completionTimes))
    ensures p.timing.avgAssignTime == Round1(Mean(assignTimes))
    ensures completionTimes == [] ==> p.timing.avgCompletionTime == 0.0
    ensures assignTimes == [] ==> p.timing.avgAssignTime == 0.0
  {
    var orders := PerformanceOrdersOf(n.totalOrders, n.completedOrders, n.cancelledOrders);
    Round1Zero();
    Performance(
      orders,
      PerformanceCallsOf(n.totalCalls, n.answeredCalls, n.missedCalls),
      PerformanceTiming(Round1(Mean(completionTimes)), Round1(Mean(assignTimes))),
      PerformanceFinanceOf(revenue, expenditure),
      PerformanceConversionOf(n.totalOrders, n.answeredCalls, orders.completionRate))
  }

  /** Revenue with no expenditure is all profit: a margin of exactly 100. */
  lemma WholeMargin(revenue: int)
    requires revenue > 0
    ensures Round2(Percent(revenue, revenue)) == 100.0
  {
    var p := Percent(revenue, revenue);
    assert p * revenue as real == 100.0 * revenue as real;
    assert p == 100.0;
    assert p * 100.0 == 10000 as real;
    RoundOfInt(10000);
  }

  /** Two disjoint parts of a total have percentages adding up to at most 100. */
  lemma PercentSum(a: int, b: int, total: int)
    ensures 0 <= a && 0 <= b && a + b <= total ==> 0.0 <= Percent(a, total) + Percent(b, total) <= 100.0
  {
    if 0 <= a && 0 <= b && a + b <= total && total > 0 {
      var t := total as real;
      QuotientsAdd(a as real, b as real, t);
      assert Percent(a, total) + Percent(b, total) == Percent(a + b, total);
    }
  }

  /** Fractions over one denominator add up by their numerators. */
  lemma QuotientsAdd(x: real, y: real, t: real)
    requires t != 0.0
    ensures x / t + y / t == (x + y) / t
  {
  }
}
