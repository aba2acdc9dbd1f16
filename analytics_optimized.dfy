/**
 * The grouped analytics service. Instead of one query per operator, city or
 * campaign it runs a few `groupBy` queries, fills lookup tables from the
 * grouped rows with `forEach` loops, and derives each entity's metrics from
 * lookups in those tables with a `|| 0` default.
 *
 * The grouped rows are inputs; the lemmas here state what the lookups mean in
 * terms of the grouped rows (their counts and sums under distinct keys), and
 * the equivalence with the per-entity queries is proved in module
 * AnalyticsEquivalence.
 */
module AnalyticsOptimized {
  import opened Wrappers
  import opened Records
  import opened Folds
  import opened Numeric
  import opened JsMap
  import opened Grouping
  import opened GroupedMaps
  import opened QueryFilter
  import opened Sorting
  import opened ReportsService
  import opened AnalyticsCommon
  import opened AnalyticsMetrics

  // ------------------------------------------------------- operator statistics

  predicate OperatorCallSelects(q: AnalyticsQuery, operatorId: Option<int>, c: Call)
  {
    CallInWindow(q, c) && (IdGiven(operatorId) ==> c.operatorId == operatorId.value)
  }

  predicate OperatorOrderSelects(q: AnalyticsQuery, operatorId: Option<int>, o: Order)
  {
    OrderInWindow(q, o) && (IdGiven(operatorId) ==> o.operatorNameId == Some(operatorId.value))
  }

  /** The call and order `where` of the operator statistics: the query's dates, and the operator when one is given. */
  method BuildOperatorWheres(q: AnalyticsQuery, operatorId: Option<int>) returns (callWhere: CallWhere, orderWhere: OrderWhere)
    ensures forall c :: CallMatches(callWhere, c) <==> OperatorCallSelects(q, operatorId, c)
    ensures forall o :: OrderMatches(orderWhere, o) <==> OperatorOrderSelects(q, operatorId, o)
  {
    callWhere, orderWhere := BuildWindowWheres(q);
    if IdGiven(operatorId) {
      callWhere := callWhere.(operatorId := operatorId);
      orderWhere := orderWhere.(operatorNameId := IdIs(operatorId.value));
    }
  }

  /** A row of the calls grouped by `['operatorId', 'status']` with `_count` and `_avg.duration`. */
  datatype CallGroup = CallGroup(operatorId: int, status: string, count: nat, avgDuration: Option<real>)
  /** A row of the orders grouped by `['operatorNameId', 'statusOrder']` with `_count`. */
  datatype OrderGroup = OrderGroup(operatorNameId: Option<int>, statusOrder: string, count: nat)
  /** A row of the orders with a result grouped by `['operatorNameId']` with `_sum.result`. */
  datatype RevenueGroup = RevenueGroup(operatorNameId: Option<int>, sumResult: Option<int>)

  /** `{ count: stat._count.id, avgDuration: stat._avg.duration || 0 }` */
  datatype CallCell = CallCell(count: int, avgDuration: real)

  function CallKey(g: CallGroup): (int, string) { (g.operatorId, g.status) }
  function CallCount(g: CallGroup): int { g.count }
  function CallCellOf(g: CallGroup): CallCell { CallCell(g.count, g.avgDuration.GetOr(0.0)) }
  function CellCount(c: CallCell): int { c.count }
  function OrderKey(g: OrderGroup): (Option<int>, string) { (g.operatorNameId, g.statusOrder) }
  function OrderCount(g: OrderGroup): int { g.count }
  function RevenueKey(g: RevenueGroup): Option<int> { g.operatorNameId }
  /** `Number(stat._sum.result || 0)` */
  function RevenueOf(g: RevenueGroup): int { OrZero(g.sumResult) }

  /** `callsMap`, `ordersMap` and `revenueMap`. */
  datatype OperatorTables = OperatorTables(
    calls: seq<Entry<int, seq<Entry<string, CallCell>>>>,
    orders: seq<Entry<Option<int>, seq<Entry<string, int>>>>,
    revenue: seq<Entry<Option<int>, int>>)

  /** The tables the three `forEach` loops leave behind. */
  function TablesOf(callsStats: seq<CallGroup>, ordersStats: seq<OrderGroup>, revenueStats: seq<RevenueGroup>): OperatorTables
  {
    OperatorTables(NestedOf(callsStats, CallKey, CallCellOf), NestedOf(ordersStats, OrderKey, OrderCount),
                   FlatOf(revenueStats, RevenueKey, RevenueOf))
  }

  /** `calls.get('answered')?.avgDuration || 0` */
  function AnsweredAvg(calls: seq<Entry<string, CallCell>>): real
  {
    match Get(calls, Answered)
    case Some(c) => c.avgDuration
    case None => 0.0
  }

  /** One operator's statistics, read from the tables. */
  function OperatorEntry(op: Operator, t: OperatorTables): OperatorRow
  {
    var calls := Inner(t.calls, op.id);
    var orders := Inner(t.orders, Some(op.id));
    OperatorRowOf(op,
      SumValues(calls, CellCount), LookupOr0(calls, Answered, CellCount), LookupOr0(calls, Missed, CellCount),
      AnsweredAvg(calls),
      SumValues(orders, IntValue), LookupOr0(orders, Closed, IntValue),
      LookupOr0(t.revenue, Some(op.id), IntValue))
  }

  /**
   * `getOperatorStatistics`: fills the three tables from the grouped rows,
   * then maps every requested operator, in order, to its statistics.
   */
  method GetOperatorStatistics(operatorId: Option<int>, roster: seq<Operator>, callsStats: seq<CallGroup>,
                               ordersStats: seq<OrderGroup>, revenueStats: seq<RevenueGroup>) returns (data: seq<OperatorRow>)
    ensures |data| == |Filter(roster, OperatorWanted(operatorId))|
    ensures forall i :: 0 <= i < |data| ==>
              data[i] == OperatorEntry(Filter(roster, OperatorWanted(operatorId))[i], TablesOf(callsStats, ordersStats, revenueStats))
    ensures forall i :: 0 <= i < |data| ==> data[i].operatorId == Filter(roster, OperatorWanted(operatorId))[i].id
  {
    var operators := Filter(roster, OperatorWanted(operatorId));
    var callsMap := FillNested(callsStats, CallKey, CallCellOf);
    var ordersMap := FillNested(ordersStats, OrderKey, OrderCount);
    var revenueMap := FillFlat(revenueStats, RevenueKey, RevenueOf);
    var t := OperatorTables(callsMap, ordersMap, revenueMap);
    data := seq(|operators|, i requires 0 <= i < |operators| => OperatorEntry(operators[i], t));
  }

  /**
   * With distinct group keys, each number of an operator's statistics is the
   * sum of the grouped counts or revenues for that operator: the status
   * buckets of all its calls or orders for a total, the one bucket of a
   * status otherwise.
   */
  lemma OperatorEntryCounts(op: Operator, callsStats: seq<CallGroup>, ordersStats: seq<OrderGroup>, revenueStats: seq<RevenueGroup>)
    requires DistinctKeys(callsStats, CallKey) && DistinctKeys(ordersStats, OrderKey) && DistinctKeys(revenueStats, RevenueKey)
    ensures var r := OperatorEntry(op, TablesOf(callsStats, ordersStats, revenueStats));
            && r.calls.total == SumKeyIf(callsStats, CallKey, OuterIs(op.id), CallCount)
            && r.calls.answered == SumKeyIf(callsStats, CallKey, PairIs(op.id, Answered), CallCount)
            && r.calls.missed == SumKeyIf(callsStats, CallKey, PairIs(op.id, Missed), CallCount)
            && r.orders.total == SumKeyIf(ordersStats, OrderKey, OuterIs(Some(op.id)), OrderCount)
            && r.orders.completed == SumKeyIf(ordersStats, OrderKey, PairIs(Some(op.id), Closed), OrderCount)
            && r.orders.totalRevenue == SumKeyIf(revenueStats, RevenueKey, KeyIs(Some(op.id)), RevenueOf)
  {
    NestedTotal(callsStats, CallKey, CallCellOf, CellCount, CallCount, op.id);
    NestedLookup(callsStats, CallKey, CallCellOf, CellCount, CallCount, op.id, Answered);
    NestedLookup(callsStats, CallKey, CallCellOf, CellCount, CallCount, op.id, Missed);
    NestedTotal(ordersStats, OrderKey, OrderCount, IntValue, OrderCount, Some(op.id));
    NestedLookup(ordersStats, OrderKey, OrderCount, IntValue, OrderCount, Some(op.id), Closed);
    FlatLookup(revenueStats, RevenueKey, RevenueOf, IntValue, RevenueOf, Some(op.id));
  }

  /**
   * The total calls of an operator add up every status bucket, so the
   * answered and missed buckets fit inside it and the answer rate is a
   * percentage.
   */
  lemma OperatorEntryBounds(op: Operator, callsStats: seq<CallGroup>, ordersStats: seq<OrderGroup>, revenueStats: seq<RevenueGroup>)
    requires DistinctKeys(callsStats, CallKey) && DistinctKeys(ordersStats, OrderKey) && DistinctKeys(revenueStats, RevenueKey)
    ensures var r := OperatorEntry(op, TablesOf(callsStats, ordersStats, revenueStats));
            && 0 <= r.calls.answered && 0 <= r.calls.missed
            && r.calls.answered + r.calls.missed <= r.calls.total
            && 0.0 <= r.calls.answerRate <= 100.0
            && 0 <= r.orders.completed <= r.orders.total
  {
    OperatorEntryCounts(op, callsStats, ordersStats, revenueStats);
    assert Answered[0] != Missed[0];
    SumKeyIfDisjoint(callsStats, CallKey, PairIs(op.id, Answered), PairIs(op.id, Missed), OuterIs(op.id), CallCount);
    SumKeyIfMonotone(ordersStats, OrderKey, PairIs(Some(op.id), Closed), OuterIs(Some(op.id)), OrderCount);
  }

  /** An operator without grouped rows gets all-zero calls, orders and revenue. */
  lemma OperatorEntryNoGroups(op: Operator, callsStats: seq<CallGroup>, ordersStats: seq<OrderGroup>, revenueStats: seq<RevenueGroup>)
    requires forall i :: 0 <= i < |callsStats| ==> callsStats[i].operatorId != op.id
    requires forall i :: 0 <= i < |ordersStats| ==> ordersStats[i].operatorNameId != Some(op.id)
    requires forall i :: 0 <= i < |revenueStats| ==> revenueStats[i].operatorNameId != Some(op.id)
    ensures var r := OperatorEntry(op, TablesOf(callsStats, ordersStats, revenueStats));
            && r.calls == OperatorCalls(0, 0, 0, 0, 0.0)
            && r.orders == OperatorOrders(0, 0, 0.0, 0, 0)
  {
    NestedAbsent(callsStats, CallKey, CallCellOf, op.id);
    NestedAbsent(ordersStats, OrderKey, OrderCount, Some(op.id));
    FlatAbsent(revenueStats, RevenueKey, RevenueOf, Some(op.id));
    RoundOfInt(0);
    Round2Zero();
  }

  // -------------------------------------------- city and campaign analytics

  /** A row of the orders grouped by `city` (or by `rk`) with `_count` and `_sum.result`. */
  datatype EntityGroup = EntityGroup(key: string, count: nat, sumResult: Option<int>)
  /** A row of the 'Закрыт' orders grouped by `[city, statusOrder]` (or `[rk, statusOrder]`) with `_count`. */
  datatype ClosedGroup = ClosedGroup(key: string, statusOrder: string, count: nat)

  function ClosedKey(g: ClosedGroup): string { g.key }
  function ClosedPair(g: ClosedGroup): (string, string) { (g.key, g.statusOrder) }
  function ClosedCount(g: ClosedGroup): int { g.count }

  /** `completedMap.get(key) || 0` */
  function CompletedOf(completedMap: seq<Entry<string, int>>, key: string): int
  {
    LookupOr0(completedMap, key, IntValue)
  }

  function CityEntry(stat: EntityGroup, completedMap: seq<Entry<string, int>>, calls: EntityCalls): CityAnalytics
  {
    CityAnalyticsOf(stat.key, calls, stat.count, CompletedOf(completedMap, stat.key), OrZero(stat.sumResult))
  }

  /** `cityOrderStats.map(...)` */
  function CityEntries(stats: seq<EntityGroup>, completedMap: seq<Entry<string, int>>, calls: EntityCalls): (rs: seq<CityAnalytics>)
    ensures |rs| == |stats|
    ensures forall i :: 0 <= i < |stats| ==> rs[i] == CityEntry(stats[i], completedMap, calls)
  {
    seq(|stats|, i requires 0 <= i < |stats| => CityEntry(stats[i], completedMap, calls))
  }

  /**
   * `getCityAnalytics`: one entry per grouped city, sorted by total orders,
   * largest first.
   */
  method GetCityAnalytics(q: AnalyticsQuery, cityOrderStats: seq<EntityGroup>, completedOrderStats: seq<ClosedGroup>,
                          calls: seq<Call>) returns (data: seq<CityAnalytics>)
    ensures SortedDesc(data, CityOrdersTotal)
    ensures multiset(data) == multiset(CityEntries(cityOrderStats, FlatOf(completedOrderStats, ClosedKey, ClosedCount), PeriodCalls(q, calls)))
  {
    var callTotals := PeriodCalls(q, calls);
    var completedMap := FillFlat(completedOrderStats, ClosedKey, ClosedCount);
    data := SortDesc(CityEntries(cityOrderStats, completedMap, callTotals), CityOrdersTotal);
  }

  /**
   * The grouped 'Закрыт' rows all have the same status, so their `[key,
   * statusOrder]` pairs are distinct exactly when their keys are; the
   * table then holds, for a key, the count of its one grouped row.
   */
  lemma CompletedLookup(completedOrderStats: seq<ClosedGroup>, key: string)
    requires DistinctKeys(completedOrderStats, ClosedPair)
    requires forall i :: 0 <= i < |completedOrderStats| ==> completedOrderStats[i].statusOrder == Closed
    ensures CompletedOf(FlatOf(completedOrderStats, ClosedKey, ClosedCount), key)
         == SumKeyIf(completedOrderStats, ClosedKey, KeyIs(key), ClosedCount)
  {
    assert DistinctKeys(completedOrderStats, ClosedKey) by {
      forall i, j | 0 <= i < j < |completedOrderStats|
        ensures ClosedKey(completedOrderStats[i]) != ClosedKey(completedOrderStats[j])
      {
        assert ClosedPair(completedOrderStats[i]) != ClosedPair(completedOrderStats[j]);
      }
    }
    FlatLookup(completedOrderStats, ClosedKey, ClosedCount, IntValue, ClosedCount, key);
  }

  /** `revenueTotal > 0 && totalOrders > 0 ? revenueTotal / totalOrders : 0` */
  function Roi(revenue: int, totalOrders: int): (r: real)
    ensures r != 0.0 ==> revenue > 0 && totalOrders > 0
    ensures revenue > 0 && totalOrders > 0 ==> r > 0.0 && r * totalOrders as real == revenue as real
  {
    if revenue > 0 && totalOrders > 0 then revenue as real / totalOrders as real else 0.0
  }

  function CampaignEntry(stat: EntityGroup, completedMap: seq<Entry<string, int>>, calls: EntityCalls): (r: CampaignAnalytics)
    ensures r.revenue.roi >= 0
    ensures r.revenue.roi != 0 ==> r.revenue.total > 0 && r.orders.total > 0
  {
    var revenue := OrZero(stat.sumResult);
    var roi := Roi(revenue, stat.count);
    RoundMonotone(0.0, roi);
    RoundOfInt(0);
    CampaignAnalyticsOf(stat.key, calls, stat.count, CompletedOf(completedMap, stat.key), revenue, roi)
  }

  function CampaignEntries(stats: seq<EntityGroup>, completedMap: seq<Entry<string, int>>, calls: EntityCalls): (rs: seq<CampaignAnalytics>)
    ensures |rs| == |stats|
    ensures forall i :: 0 <= i < |stats| ==> rs[i] == CampaignEntry(stats[i], completedMap, calls)
  {
    seq(|stats|, i requires 0 <= i < |stats| => CampaignEntry(stats[i], completedMap, calls))
  }

  /**
   * `getCampaignAnalytics`: one entry per grouped campaign, sorted by total
   * revenue, largest first.
   */
  method GetCampaignAnalytics(q: AnalyticsQuery, campaignStats: seq<EntityGroup>, completedStats: seq<ClosedGroup>,
                              calls: seq<Call>) returns (data: seq<CampaignAnalytics>)
    ensures SortedDesc(data, CampaignRevenueTotal)
    ensures multiset(data) == multiset(CampaignEntries(campaignStats, FlatOf(completedStats, ClosedKey, ClosedCount), PeriodCalls(q, calls)))
  {
    var callTotals := PeriodCalls(q, calls);
    var completedMap := FillFlat(completedStats, ClosedKey, ClosedCount);
    data := SortDesc(CampaignEntries(campaignStats, completedMap, callTotals), CampaignRevenueTotal);
  }

  // ---------------------------------------------------- performance metrics

  /** A row of orders grouped by `statusOrder`, or of calls grouped by `status`, with `_count`. */
  datatype StatusGroup = StatusGroup(status: string, count: nat)

  function StatusKey(g: StatusGroup): string { g.status }
  function StatusCount(g: StatusGroup): int { g.count }

  /** How many rows each `findMany` of the timing samples may return (`take: 1000`). */
  const SampleLimit: nat := 1000

  /** The six counts, read from `ordersByStatus` and `callsByStatus`. */
  function CountsOf(ordersByStatus: seq<Entry<string, int>>, callsByStatus: seq<Entry<string, int>>): PerformanceCounts
  {
    PerformanceCounts(
      SumValues(ordersByStatus, IntValue), LookupOr0(ordersByStatus, Closed, IntValue), LookupOr0(ordersByStatus, Cancelled, IntValue),
      SumValues(callsByStatus, IntValue), LookupOr0(callsByStatus, Answered, IntValue), LookupOr0(callsByStatus, Missed, IntValue))
  }

  /**
   * `getPerformanceMetrics`: the status tables from the grouped rows, the
   * revenue and expenditure aggregates, and timing samples from at most
   * 1000 rows of each sample query.
   */
  method GetPerformanceMetrics(q: AnalyticsQuery, orderStats: seq<StatusGroup>, callStats: seq<StatusGroup>, orders: seq<Order>)
    returns (p: Performance)
    ensures p == PerformanceOf(CountsOf(FlatOf(orderStats, StatusKey, StatusCount), FlatOf(callStats, StatusKey, StatusCount)),
                               Samples(Take(Filter(orders, ClosedWithDate(q)), SampleLimit), ClosedAt),
                               Samples(Take(Filter(orders, AssignedWithMeeting(q)), SampleLimit), MeetingAt),
                               SumIf(orders, WithResult(q), ResultOrZero), SumIf(orders, WithExpenditure(q), ExpenditureOrZero))
  {
    var ordersByStatus := FillFlat(orderStats, StatusKey, StatusCount);
    var callsByStatus := FillFlat(callStats, StatusKey, StatusCount);
    var completionTimeOrders := Take(Filter(orders, ClosedWithDate(q)), SampleLimit);
    var assignTimeOrders := Take(Filter(orders, AssignedWithMeeting(q)), SampleLimit);
    var revenue := SumIf(orders, WithResult(q), ResultOrZero);
    var expenditure := SumIf(orders, WithExpenditure(q), ExpenditureOrZero);
    p := PerformanceOf(CountsOf(ordersByStatus, callsByStatus),
                       Samples(completionTimeOrders, ClosedAt), Samples(assignTimeOrders, MeetingAt), revenue, expenditure);
  }

  /**
   * With distinct statuses, the totals add up every status bucket and the
   * 'Закрыт'/'Отменен' and 'answered'/'missed' buckets fit inside them.
   */
  lemma PerformanceCountsBounds(orderStats: seq<StatusGroup>, callStats: seq<StatusGroup>)
    requires DistinctKeys(orderStats, StatusKey) && DistinctKeys(callStats, StatusKey)
    ensures var n := CountsOf(FlatOf(orderStats, StatusKey, StatusCount), FlatOf(callStats, StatusKey, StatusCount));
            && n.totalOrders == Sum(orderStats, StatusCount) && n.totalCalls == Sum(callStats, StatusCount)
            && n.completedOrders == SumKeyIf(orderStats, StatusKey, KeyIs(Closed), StatusCount)
            && n.answeredCalls == SumKeyIf(callStats, StatusKey, KeyIs(Answered), StatusCount)
            && 0 <= n.completedOrders && 0 <= n.cancelledOrders && n.completedOrders + n.cancelledOrders <= n.totalOrders
            && 0 <= n.answeredCalls && 0 <= n.missedCalls && n.answeredCalls + n.missedCalls <= n.totalCalls
  {
    StatusBuckets(orderStats, Closed, Cancelled);
    StatusBuckets(callStats, Answered, Missed);
  }

  lemma StatusBuckets(stats: seq<StatusGroup>, a: string, b: string)
    requires DistinctKeys(stats, StatusKey) && a != b
    ensures var m := FlatOf(stats, StatusKey, StatusCount);
            && SumValues(m, IntValue) == Sum(stats, StatusCount)
            && LookupOr0(m, a, IntValue) == SumKeyIf(stats, StatusKey, KeyIs(a), StatusCount)
            && 0 <= LookupOr0(m, a, IntValue) && 0 <= LookupOr0(m, b, IntValue)
            && LookupOr0(m, a, IntValue) + LookupOr0(m, b, IntValue) <= SumValues(m, IntValue)
  {
    FlatTotal(stats, StatusKey, StatusCount, IntValue, StatusCount);
    FlatLookup(stats, StatusKey, StatusCount, IntValue, StatusCount, a);
    FlatLookup(stats, StatusKey, StatusCount, IntValue, StatusCount, b);
    SumKeyIfDisjoint(stats, StatusKey, KeyIs(a), KeyIs(b), AnyKey(), StatusCount);
    SumKeyIfAll(stats, StatusKey, AnyKey(), StatusCount);
  }

  function AnyKey(): string -> bool
  {
    (k: string) => true
  }

  /** Every timing sample comes from a selected row, and there are at most 1000 of each. */
  lemma PerformanceSamples(q: AnalyticsQuery, orders: seq<Order>)
    ensures |Samples(Take(Filter(orders, ClosedWithDate(q)), SampleLimit), ClosedAt)| <= SampleLimit
    ensures |Samples(Take(Filter(orders, AssignedWithMeeting(q)), SampleLimit), MeetingAt)| <= SampleLimit
    ensures forall t :: t in Samples(Take(Filter(orders, ClosedWithDate(q)), SampleLimit), ClosedAt) ==>
              exists o :: o in orders && ClosedWithDate(q)(o) && t == HoursBetween(o.createDate, o.closingData.value)
    ensures |Filter(orders, ClosedWithDate(q))| <= SampleLimit ==>
              |Samples(Take(Filter(orders, ClosedWithDate(q)), SampleLimit), ClosedAt)| == CountIf(orders, ClosedWithDate(q))
  {
    var rows := Take(Filter(orders, ClosedWithDate(q)), SampleLimit);
    var rows2 := Take(Filter(orders, AssignedWithMeeting(q)), SampleLimit);
    CountIfMonotone(rows, HasStamp(ClosedAt), (o: Order) => true);
    CountIfAll(rows, (o: Order) => true);
    CountIfMonotone(rows2, HasStamp(MeetingAt), (o: Order) => true);
    CountIfAll(rows2, (o: Order) => true);
    forall t | t in Samples(rows, ClosedAt)
      ensures exists o :: o in orders && ClosedWithDate(q)(o) && t == HoursBetween(o.createDate, o.closingData.value)
    {
      var o :| o in rows && StampOf(ClosedAt, o).Some? && t == HoursBetween(o.createDate, StampOf(ClosedAt, o).value);
      assert o in Filter(orders, ClosedWithDate(q));
    }
    if |Filter(orders, ClosedWithDate(q))| <= SampleLimit {
      CountIfAll(rows, HasStamp(ClosedAt));
      FilterLength(orders, ClosedWithDate(q));
    }
  }
}
