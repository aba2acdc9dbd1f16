/**
 * The grouped analytics service against the legacy one. The grouped rows are
 * what the database's `groupBy` returns for the rows a query selects: one row
 * per distinct key, each key of a selected row present, and each aggregate
 * the count or sum over the selected rows with that key (Grouping.IsGrouping).
 * Under that reading the lemmas here show which numbers of the two services
 * agree, and exhibit inputs on which the ones that differ do differ.
 */
module AnalyticsEquivalence {
  import opened Wrappers
  import opened Records
  import opened Folds
  import opened Numeric
  import opened JsMap
  import opened Grouping
  import opened GroupedMaps
  import opened Sorting
  import opened ReportsService
  import opened AnalyticsCommon
  import opened AnalyticsMetrics
  import opened AnalyticsOptimized
  import opened AnalyticsLegacy

  // ------------------------------------------------------- operator statistics

  /** The `by` columns of the three `groupBy` queries, read off a raw row. */
  function CallRowKey(c: Call): (int, string) { (c.operatorId, c.status) }
  function OrderRowKey(o: Order): (Option<int>, string) { (o.operatorNameId, o.statusOrder) }
  function RevenueRowKey(o: Order): Option<int> { o.operatorNameId }

  function OperatorCallsSelected(q: AnalyticsQuery, operatorId: Option<int>): Call -> bool
  {
    (c: Call) => OperatorCallSelects(q, operatorId, c)
  }

  function OperatorOrdersSelected(q: AnalyticsQuery, operatorId: Option<int>): Order -> bool
  {
    (o: Order) => OperatorOrderSelects(q, operatorId, o)
  }

  /** The revenue `groupBy` adds `result: { not: null }` to the orders' `where`. */
  function OperatorRevenueSelected(q: AnalyticsQuery, operatorId: Option<int>): Order -> bool
  {
    (o: Order) => OperatorOrderSelects(q, operatorId, o) && o.result.Some?
  }

  /** The three grouped results of the operator statistics are groupings of the rows their queries select. */
  ghost predicate OperatorGroupings(q: AnalyticsQuery, operatorId: Option<int>, calls: seq<Call>, orders: seq<Order>,
                                    callsStats: seq<CallGroup>, ordersStats: seq<OrderGroup>, revenueStats: seq<RevenueGroup>)
  {
    && IsGrouping(Filter(calls, OperatorCallsSelected(q, operatorId)), CallRowKey, OneCall, callsStats, CallKey, CallCount)
    && IsGrouping(Filter(orders, OperatorOrdersSelected(q, operatorId)), OrderRowKey, OneOrder, ordersStats, OrderKey, OrderCount)
    && IsGrouping(Filter(orders, OperatorRevenueSelected(q, operatorId)), RevenueRowKey, ResultOrZero,
                  revenueStats, RevenueKey, RevenueOf)
  }

  /**
   * For a requested operator, the grouped statistics and the per-operator
   * queries agree on every number except the average call duration: the
   * call counts and answer rate, the order counts, conversion rate, revenue
   * and average revenue.
   */
  lemma OperatorEntryAgrees(q: AnalyticsQuery, operatorId: Option<int>, op: Operator, calls: seq<Call>, orders: seq<Order>,
                            callsStats: seq<CallGroup>, ordersStats: seq<OrderGroup>, revenueStats: seq<RevenueGroup>)
    requires OperatorWanted(operatorId)(op)
    requires OperatorGroupings(q, operatorId, calls, orders, callsStats, ordersStats, revenueStats)
    ensures var a := OperatorEntry(op, TablesOf(callsStats, ordersStats, revenueStats));
            var b := LegacyOperatorEntry(q, op, calls, orders);
            a.(calls := a.calls.(avgDuration := b.calls.avgDuration)) == b
  {
    var callSel := OperatorCallsSelected(q, operatorId);
    var orderSel := OperatorOrdersSelected(q, operatorId);
    var revenueSel := OperatorRevenueSelected(q, operatorId);
    OperatorEntryCounts(op, callsStats, ordersStats, revenueStats);
    GroupedCountOfFilter(calls, callSel, CallRowKey, OneCall, callsStats, CallKey, CallCount,
                         OuterIs(op.id), CallsOf(q, op.id));
    GroupedCountOfFilter(calls, callSel, CallRowKey, OneCall, callsStats, CallKey, CallCount,
                         PairIs(op.id, Answered), CallsOfWith(q, op.id, Answered));
    GroupedCountOfFilter(calls, callSel, CallRowKey, OneCall, callsStats, CallKey, CallCount,
                         PairIs(op.id, Missed), CallsOfWith(q, op.id, Missed));
    GroupedCountOfFilter(orders, orderSel, OrderRowKey, OneOrder, ordersStats, OrderKey, OrderCount,
                         OuterIs(Some(op.id)), OrdersOf(q, op.id));
    GroupedCountOfFilter(orders, orderSel, OrderRowKey, OneOrder, ordersStats, OrderKey, OrderCount,
                         PairIs(Some(op.id), Closed), OrdersOfWith(q, op.id, Closed));
    GroupedSumOfFilter(orders, revenueSel, RevenueRowKey, ResultOrZero, revenueStats, RevenueKey, RevenueOf,
                       KeyIs(Some(op.id)), OrdersOfWithResult(q, op.id));
  }

  /** The same for the whole response: both list the requested operators in roster order, with the same numbers. */
  lemma OperatorStatisticsAgree(q: AnalyticsQuery, operatorId: Option<int>, roster: seq<Operator>, calls: seq<Call>,
                                orders: seq<Order>, callsStats: seq<CallGroup>, ordersStats: seq<OrderGroup>,
                                revenueStats: seq<RevenueGroup>, data: seq<OperatorRow>)
    requires OperatorGroupings(q, operatorId, calls, orders, callsStats, ordersStats, revenueStats)
    requires |data| == |Filter(roster, OperatorWanted(operatorId))|
    requires forall i :: 0 <= i < |data| ==>
               data[i] == OperatorEntry(Filter(roster, OperatorWanted(operatorId))[i], TablesOf(callsStats, ordersStats, revenueStats))
    ensures var legacy := LegacyOperatorStatistics(q, operatorId, roster, calls, orders);
            && |data| == |legacy|
            && forall i :: 0 <= i < |data| ==> data[i].(calls := data[i].calls.(avgDuration := legacy[i].calls.avgDuration)) == legacy[i]
  {
    var ops := Filter(roster, OperatorWanted(operatorId));
    var legacy := LegacyOperatorStatistics(q, operatorId, roster, calls, orders);
    forall i | 0 <= i < |data|
      ensures data[i].(calls := data[i].calls.(avgDuration := legacy[i].calls.avgDuration)) == legacy[i]
    {
      assert ops[i] in ops;
      OperatorEntryAgrees(q, operatorId, ops[i], calls, orders, callsStats, ordersStats, revenueStats);
    }
  }

  /** One operator with one answered call of 60 seconds and one missed call of 0 seconds. */
  function SampleOperator(): Operator { Operator(1, "op", "op", Working) }
  function AnsweredCall(): Call { Call(1, 1, Answered, Some(60), 0, None, None) }
  function MissedCall(): Call { Call(2, 1, Missed, Some(0), 0, None, None) }
  function SampleCallGroups(): seq<CallGroup> { [CallGroup(1, Answered, 1, Some(60.0)), CallGroup(1, Missed, 1, Some(0.0))] }

  lemma SampleIsGrouping()
    ensures OperatorGroupings(AnalyticsQuery(None, None), None, [AnsweredCall(), MissedCall()], [], SampleCallGroups(), [], [])
  {
    var q := AnalyticsQuery(None, None);
    var c1, c2 := AnsweredCall(), MissedCall();
    var calls := [c1, c2];
    var callsStats := SampleCallGroups();
    assert Answered != Missed by { assert Answered[0] != Missed[0]; }
    var rows := Filter(calls, OperatorCallsSelected(q, None));
    assert OperatorCallsSelected(q, None)(c1) && OperatorCallsSelected(q, None)(c2);
    assert calls[1..] == [c2] && [c2][1..] == [];
    assert rows == calls;
    assert CallRowKey(c1) == (1, Answered) && CallRowKey(c2) == (1, Missed);
    assert SumWithKey([c2], CallRowKey, OneCall, (1, Answered)) == 0;
    assert SumWithKey(rows, CallRowKey, OneCall, (1, Answered)) == 1;
    assert SumWithKey([c2], CallRowKey, OneCall, (1, Missed)) == 1;
    assert SumWithKey(rows, CallRowKey, OneCall, (1, Missed)) == 1;
    assert CallKey(callsStats[0]) == CallRowKey(c1) && CallKey(callsStats[1]) == CallRowKey(c2);
  }

  lemma SampleGroupedAvg()
    ensures OperatorEntry(SampleOperator(), TablesOf(SampleCallGroups(), [], [])).calls.avgDuration == 60
  {
    var callsStats := SampleCallGroups();
    assert Answered != Missed by { assert Answered[0] != Missed[0]; }
    var cell1, cell2 := CallCell(1, 60.0), CallCell(1, 0.0);
    assert callsStats[..1] == [callsStats[0]] && [callsStats[0]][..0] == [];
    assert NestedOf(callsStats[..1], CallKey, CallCellOf) == [Entry(1, [Entry(Answered, cell1)])];
    var m1 := NestedOf(callsStats[..1], CallKey, CallCellOf);
    assert NestedOf(callsStats, CallKey, CallCellOf) == AddNested(m1, 1, Missed, cell2);
    assert m1 == [Entry(1, [Entry(Answered, cell1)])];
    assert m1[1..] == [];
    assert Inner(m1, 1) == [Entry(Answered, cell1)];
    assert Keys([Entry(Answered, cell1)]) == [Answered];
    SetNewKey([Entry(Answered, cell1)], Missed, cell2);
    assert Set(Inner(m1, 1), Missed, cell2) == [Entry(Answered, cell1), Entry(Missed, cell2)];
    assert Set(m1, 1, [Entry(Answered, cell1), Entry(Missed, cell2)]) == [Entry(1, [Entry(Answered, cell1), Entry(Missed, cell2)])];
    assert NestedOf(callsStats, CallKey, CallCellOf) == [Entry(1, [Entry(Answered, cell1), Entry(Missed, cell2)])];
    var inner := Inner(TablesOf(callsStats, [], []).calls, 1);
    assert inner == [Entry(Answered, cell1), Entry(Missed, cell2)];
    assert AnsweredAvg(inner) == 60.0;
    RoundOfInt(60);
  }

  lemma SampleLegacyAvg()
    ensures LegacyOperatorEntry(AnalyticsQuery(None, None), SampleOperator(), [AnsweredCall(), MissedCall()], []).calls.avgDuration == 30
  {
    var q := AnalyticsQuery(None, None);
    var calls := [AnsweredCall(), MissedCall()];
    assert calls[1..] == [MissedCall()] && [MissedCall()][1..] == [];
    assert TimedCallsOf(q, 1)(AnsweredCall()) && TimedCallsOf(q, 1)(MissedCall());
    assert SumIf(calls, TimedCallsOf(q, 1), DurationOrZero) == 60;
    assert CountIf(calls, TimedCallsOf(q, 1)) == 2;
    RoundOfInt(30);
  }

  /**
   * The average call duration is where the two differ: the grouped service
   * reports the answered bucket's `_avg.duration`, the legacy one averages
   * every call of the operator that has a duration. One answered call of 60
   * seconds and one missed call of 0 seconds give 60 and 30.
   */
  lemma AvgDurationDiffers()
    ensures var q := AnalyticsQuery(None, None);
            var calls := [AnsweredCall(), MissedCall()];
            && OperatorGroupings(q, None, calls, [], SampleCallGroups(), [], [])
            && OperatorEntry(SampleOperator(), TablesOf(SampleCallGroups(), [], [])).calls.avgDuration == 60
            && LegacyOperatorEntry(q, SampleOperator(), calls, []).calls.avgDuration == 30
  {
    SampleIsGrouping();
    SampleGroupedAvg();
    SampleLegacyAvg();
  }

  // -------------------------------------------- city and campaign analytics

  function EntityRowKey(d: Dimension): Order -> string
  {
    (o: Order) => KeyOf(d, o)
  }

  function ClosedRowPair(d: Dimension): Order -> (string, string)
  {
    (o: Order) => (KeyOf(d, o), o.statusOrder)
  }

  /** `{ ...where, statusOrder: 'Закрыт' }` */
  function ClosedInWindow(q: AnalyticsQuery): Order -> bool
  {
    (o: Order) => OrderInWindow(q, o) && o.statusOrder == Closed
  }

  function EntityKey(g: EntityGroup): string { g.key }
  function EntityCount(g: EntityGroup): int { g.count }
  function EntityRevenue(g: EntityGroup): int { OrZero(g.sumResult) }

  /**
   * The two grouped results of the city (or campaign) analytics: the orders
   * of the period by key with their count and result sum, and the closed
   * ones by key and status with their count. The database returns a group
   * only for a key that has rows, so each count is positive and each closed
   * group has the closed status.
   */
  ghost predicate EntityGroupings(q: AnalyticsQuery, d: Dimension, orders: seq<Order>,
                                  stats: seq<EntityGroup>, completedStats: seq<ClosedGroup>)
  {
    && IsGrouping(Filter(orders, OrdersInWindow(q)), EntityRowKey(d), OneOrder, stats, EntityKey, EntityCount)
    && IsGrouping(Filter(orders, OrdersInWindow(q)), EntityRowKey(d), ResultOrZero, stats, EntityKey, EntityRevenue)
    && IsGrouping(Filter(orders, ClosedInWindow(q)), ClosedRowPair(d), OneOrder, completedStats, ClosedPair, ClosedCount)
    && (forall i :: 0 <= i < |stats| ==> stats[i].count > 0)
    && (forall i :: 0 <= i < |completedStats| ==> completedStats[i].statusOrder == Closed)
  }

  /**
   * A grouped entity's order count, closed count and revenue are what the
   * per-entity queries count and sum for its key.
   */
  lemma EntityGroupCounts(q: AnalyticsQuery, d: Dimension, orders: seq<Order>,
                          stats: seq<EntityGroup>, completedStats: seq<ClosedGroup>, i: nat)
    requires EntityGroupings(q, d, orders, stats, completedStats)
    requires i < |stats|
    ensures stats[i].count == CountIf(orders, OrdersIn(q, d, stats[i].key))
    ensures OrZero(stats[i].sumResult) == SumIf(orders, ResultIn(q, d, stats[i].key), ResultOrZero)
    ensures CompletedOf(FlatOf(completedStats, ClosedKey, ClosedCount), stats[i].key) == CountIf(orders, ClosedIn(q, d, stats[i].key))
  {
    var k := stats[i].key;
    SumKeyIfSingle(stats, EntityKey, KeyIs(k), EntityCount, i);
    SumKeyIfSingle(stats, EntityKey, KeyIs(k), EntityRevenue, i);
    GroupedCountOfFilter(orders, OrdersInWindow(q), EntityRowKey(d), OneOrder, stats, EntityKey, EntityCount,
                         KeyIs(k), OrdersIn(q, d, k));
    GroupedSumOfFilter(orders, OrdersInWindow(q), EntityRowKey(d), ResultOrZero, stats, EntityKey, EntityRevenue,
                       KeyIs(k), OrdersIn(q, d, k));
    SumIfDropZeros(orders, OrdersIn(q, d, k), ResultIn(q, d, k), ResultOrZero);
    CompletedLookup(completedStats, k);
    SumKeyIfAsSumIf(completedStats, ClosedKey, KeyIs(k), KeyHolds(ClosedKey, KeyIs(k)), ClosedCount);
    SumKeyIfAsSumIf(completedStats, ClosedPair, OuterIs(k), KeyHolds(ClosedKey, KeyIs(k)), ClosedCount);
    GroupedCountOfFilter(orders, ClosedInWindow(q), ClosedRowPair(d), OneOrder, completedStats, ClosedPair, ClosedCount,
                         OuterIs(k), ClosedIn(q, d, k));
  }

  /** The keys of the grouped entities are the distinct keys the legacy service lists, in some order. */
  lemma EntityKeysAgree(q: AnalyticsQuery, d: Dimension, orders: seq<Order>,
                        stats: seq<EntityGroup>, completedStats: seq<ClosedGroup>)
    requires EntityGroupings(q, d, orders, stats, completedStats)
    ensures multiset(MapSeq(stats, EntityKey)) == multiset(DistinctKeysOf(q, d, orders))
  {
    var rows := Filter(orders, OrdersInWindow(q));
    var ks := MapSeq(stats, EntityKey);
    var legacy := DistinctKeysOf(q, d, orders);
    forall k
      ensures k in ks <==> k in legacy
    {
      if k in ks {
        var i :| 0 <= i < |ks| && ks[i] == k;
        assert SumWithKey(rows, EntityRowKey(d), OneOrder, k) == stats[i].count;
        SumWithKeyNonZero(rows, EntityRowKey(d), OneOrder, k);
        var o :| o in rows && EntityRowKey(d)(o) == k;
      }
      if k in legacy {
        var o :| o in orders && OrderInWindow(q, o) && KeyOf(d, o) == k;
        assert o in rows;
        var i :| 0 <= i < |stats| && EntityKey(stats[i]) == EntityRowKey(d)(o);
        assert ks[i] == k;
      }
    }
    SameDistinctMembers(ks, legacy);
  }

  /** The legacy city entry as a function of the city, for fixed rows and call totals. */
  function LegacyCityOf(q: AnalyticsQuery, callTotals: EntityCalls, orders: seq<Order>): string -> CityAnalytics
  {
    (city: string) => LegacyCityEntry(q, city, callTotals, orders)
  }

  /**
   * The grouped city analytics hold the same entries as the legacy ones:
   * one per city of the period's orders, with the same numbers, given the
   * same call totals. Both are sorted by total orders, so they differ at
   * most in the order of cities with equal totals.
   */
  lemma CityAnalyticsAgree(q: AnalyticsQuery, orders: seq<Order>, calls: seq<Call>,
                           stats: seq<EntityGroup>, completedStats: seq<ClosedGroup>)
    requires EntityGroupings(q, ByCity, orders, stats, completedStats)
    ensures multiset(CityEntries(stats, FlatOf(completedStats, ClosedKey, ClosedCount), PeriodCalls(q, calls)))
         == multiset(LegacyCityEntries(q, PeriodCalls(q, calls), orders))
  {
    var callTotals := PeriodCalls(q, calls);
    var f := LegacyCityOf(q, callTotals, orders);
    var grouped := CityEntries(stats, FlatOf(completedStats, ClosedKey, ClosedCount), callTotals);
    forall i | 0 <= i < |stats|
      ensures grouped[i] == MapSeq(MapSeq(stats, EntityKey), f)[i]
    {
      EntityGroupCounts(q, ByCity, orders, stats, completedStats, i);
    }
    assert grouped == MapSeq(MapSeq(stats, EntityKey), f);
    assert LegacyCityEntries(q, callTotals, orders) == MapSeq(DistinctKeysOf(q, ByCity, orders), f);
    EntityKeysAgree(q, ByCity, orders, stats, completedStats);
    MapPermutation(MapSeq(stats, EntityKey), DistinctKeysOf(q, ByCity, orders), f);
  }

  /** The two return-on-investment guards agree unless the revenue sum is negative. */
  lemma RoiAgrees(sum: Option<int>, totalOrders: int)
    requires OrZero(sum) >= 0
    ensures Roi(OrZero(sum), totalOrders) == LegacyRoi(sum, totalOrders)
  {
  }

  /**
   * With a negative revenue sum the grouped service reports a zero return
   * and the legacy one (whose guard only asks for a non-zero sum) a negative
   * one: -100 over 2 orders gives 0 and -50.
   */
  lemma RoiDiffersWhenNegative()
    ensures Roi(-100, 2) == 0.0
    ensures LegacyRoi(Some(-100), 2) == -50.0
  {
  }

  function LegacyCampaignOf(q: AnalyticsQuery, callTotals: EntityCalls, orders: seq<Order>): string -> CampaignAnalytics
  {
    (rk: string) => LegacyCampaignEntry(q, rk, callTotals, orders)
  }

  /**
   * The grouped campaign analytics hold the same entries as the legacy ones
   * when no campaign's revenue sum is negative: one per campaign of the
   * period's orders, with the same numbers, given the same call totals.
   */
  lemma CampaignAnalyticsAgree(q: AnalyticsQuery, orders: seq<Order>, calls: seq<Call>,
                               stats: seq<EntityGroup>, completedStats: seq<ClosedGroup>)
    requires EntityGroupings(q, ByCampaign, orders, stats, completedStats)
    requires forall i :: 0 <= i < |stats| ==> OrZero(stats[i].sumResult) >= 0
    ensures multiset(CampaignEntries(stats, FlatOf(completedStats, ClosedKey, ClosedCount), PeriodCalls(q, calls)))
         == multiset(LegacyCampaignEntries(q, PeriodCalls(q, calls), orders))
  {
    var callTotals := PeriodCalls(q, calls);
    var f := LegacyCampaignOf(q, callTotals, orders);
    var grouped := CampaignEntries(stats, FlatOf(completedStats, ClosedKey, ClosedCount), callTotals);
    forall i | 0 <= i < |stats|
      ensures grouped[i] == MapSeq(MapSeq(stats, EntityKey), f)[i]
    {
      var k := stats[i].key;
      EntityGroupCounts(q, ByCampaign, orders, stats, completedStats, i);
      RoiAgrees(ResultSum(q, k, orders), stats[i].count);
    }
    assert grouped == MapSeq(MapSeq(stats, EntityKey), f);
    assert LegacyCampaignEntries(q, callTotals, orders) == MapSeq(DistinctKeysOf(q, ByCampaign, orders), f);
    EntityKeysAgree(q, ByCampaign, orders, stats, completedStats);
    MapPermutation(MapSeq(stats, EntityKey), DistinctKeysOf(q, ByCampaign, orders), f);
  }

  // ---------------------------------------------------- performance metrics

  function OrderStatusKey(o: Order): string { o.statusOrder }
  function CallStatusKey(c: Call): string { c.status }

  function OrderStatusInWindow(q: AnalyticsQuery, status: string): Order -> bool
  {
    (o: Order) => OrderInWindow(q, o) && o.statusOrder == status
  }

  function CallStatusInWindow(q: AnalyticsQuery, status: string): Call -> bool
  {
    (c: Call) => CallInWindow(q, c) && c.status == status
  }

  /** The orders and calls of the period grouped by status, with their counts. */
  ghost predicate StatusGroupings(q: AnalyticsQuery, orders: seq<Order>, calls: seq<Call>,
                                  orderStats: seq<StatusGroup>, callStats: seq<StatusGroup>)
  {
    && IsGrouping(Filter(orders, OrdersInWindow(q)), OrderStatusKey, OneOrder, orderStats, StatusKey, StatusCount)
    && IsGrouping(Filter(calls, CallsInWindow(q)), CallStatusKey, OneCall, callStats, StatusKey, StatusCount)
  }

  /** One status bucket of the grouped orders is the legacy count of that status among the fetched rows. */
  lemma OrderBucketAgrees(q: AnalyticsQuery, orders: seq<Order>, orderStats: seq<StatusGroup>, status: string)
    requires IsGrouping(Filter(orders, OrdersInWindow(q)), OrderStatusKey, OneOrder, orderStats, StatusKey, StatusCount)
    ensures LookupOr0(FlatOf(orderStats, StatusKey, StatusCount), status, IntValue)
         == CountIf(Filter(orders, OrdersInWindow(q)), OrderStatusIs(status))
  {
    FlatLookup(orderStats, StatusKey, StatusCount, IntValue, StatusCount, status);
    GroupedCountOfFilter(orders, OrdersInWindow(q), OrderStatusKey, OneOrder, orderStats, StatusKey, StatusCount,
                         KeyIs(status), OrderStatusInWindow(q, status));
    CountIfOfFilter(orders, OrdersInWindow(q), OrderStatusIs(status), OrderStatusInWindow(q, status));
  }

  lemma CallBucketAgrees(q: AnalyticsQuery, calls: seq<Call>, callStats: seq<StatusGroup>, status: string)
    requires IsGrouping(Filter(calls, CallsInWindow(q)), CallStatusKey, OneCall, callStats, StatusKey, StatusCount)
    ensures LookupOr0(FlatOf(callStats, StatusKey, StatusCount), status, IntValue)
         == CountIf(Filter(calls, CallsInWindow(q)), CallStatusIs(status))
  {
    FlatLookup(callStats, StatusKey, StatusCount, IntValue, StatusCount, status);
    GroupedCountOfFilter(calls, CallsInWindow(q), CallStatusKey, OneCall, callStats, StatusKey, StatusCount,
                         KeyIs(status), CallStatusInWindow(q, status));
    CountIfOfFilter(calls, CallsInWindow(q), CallStatusIs(status), CallStatusInWindow(q, status));
  }

  /** The six counts read from the status groups are the legacy service's counts over the fetched rows. */
  lemma StatusCountsAgree(q: AnalyticsQuery, orders: seq<Order>, calls: seq<Call>,
                          orderStats: seq<StatusGroup>, callStats: seq<StatusGroup>)
    requires StatusGroupings(q, orders, calls, orderStats, callStats)
    ensures CountsOf(FlatOf(orderStats, StatusKey, StatusCount), FlatOf(callStats, StatusKey, StatusCount))
         == LegacyCounts(Filter(orders, OrdersInWindow(q)), Filter(calls, CallsInWindow(q)))
  {
    FlatTotal(orderStats, StatusKey, StatusCount, IntValue, StatusCount);
    SumKeyIfAll(orderStats, StatusKey, AnyKey(), StatusCount);
    GroupedCountOfFilter(orders, OrdersInWindow(q), OrderStatusKey, OneOrder, orderStats, StatusKey, StatusCount,
                         AnyKey(), OrdersInWindow(q));
    FilterLength(orders, OrdersInWindow(q));
    FlatTotal(callStats, StatusKey, StatusCount, IntValue, StatusCount);
    SumKeyIfAll(callStats, StatusKey, AnyKey(), StatusCount);
    GroupedCountOfFilter(calls, CallsInWindow(q), CallStatusKey, OneCall, callStats, StatusKey, StatusCount,
                         AnyKey(), CallsInWindow(q));
    FilterLength(calls, CallsInWindow(q));
    OrderBucketAgrees(q, orders, orderStats, Closed);
    OrderBucketAgrees(q, orders, orderStats, Cancelled);
    CallBucketAgrees(q, calls, callStats, Answered);
    CallBucketAgrees(q, calls, callStats, Missed);
  }

  /**
   * While neither sample query has more than 1000 rows, the grouped
   * performance metrics are the legacy ones: the same counts and rates, the
   * same timing samples, the same finances.
   */
  lemma PerformanceAgrees(q: AnalyticsQuery, orders: seq<Order>, calls: seq<Call>,
                          orderStats: seq<StatusGroup>, callStats: seq<StatusGroup>)
    requires StatusGroupings(q, orders, calls, orderStats, callStats)
    requires CountIf(orders, ClosedWithDate(q)) <= SampleLimit
    requires CountIf(orders, AssignedWithMeeting(q)) <= SampleLimit
    ensures PerformanceOf(CountsOf(FlatOf(orderStats, StatusKey, StatusCount), FlatOf(callStats, StatusKey, StatusCount)),
                          Samples(Take(Filter(orders, ClosedWithDate(q)), SampleLimit), ClosedAt),
                          Samples(Take(Filter(orders, AssignedWithMeeting(q)), SampleLimit), MeetingAt),
                          SumIf(orders, WithResult(q), ResultOrZero), SumIf(orders, WithExpenditure(q), ExpenditureOrZero))
         == LegacyPerformance(q, orders, calls)
  {
    StatusCountsAgree(q, orders, calls, orderStats, callStats);
    FilterLength(orders, ClosedWithDate(q));
    FilterLength(orders, AssignedWithMeeting(q));
    SamplesOfNarrowed(orders, WithMaster(q), AssignedWithMeeting(q), MeetingAt);
  }

  /** Past 1000 closed orders the grouped service averages only the first 1000 of them. */
  lemma CompletionSamplesCapped(q: AnalyticsQuery, orders: seq<Order>)
    requires CountIf(orders, ClosedWithDate(q)) > SampleLimit
    ensures |Samples(Take(Filter(orders, ClosedWithDate(q)), SampleLimit), ClosedAt)| == SampleLimit
    ensures |Samples(Filter(orders, ClosedWithDate(q)), ClosedAt)| == CountIf(orders, ClosedWithDate(q))
  {
    var rows := Filter(orders, ClosedWithDate(q));
    FilterLength(orders, ClosedWithDate(q));
    var taken := Take(rows, SampleLimit);
    assert forall o :: o in taken ==> o in rows;
    CountIfAll(taken, HasStamp(ClosedAt));
    CountIfAll(rows, HasStamp(ClosedAt));
  }
}
