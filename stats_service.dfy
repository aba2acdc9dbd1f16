/**
 * The statistics service: one call-centre operator's statistics over a
 * period, the statistics of the whole call centre over a period, and the
 * admin dashboard of the current month.
 *
 * As in the grouped analytics, `groupBy` results are inputs related to the
 * raw rows by `IsGrouping`, while `count` and `aggregate` queries are
 * filters and sums over the raw rows. The operator report rests on the
 * status buckets of the operator's calls: `answered` is accepted, the three
 * statuses `missed`, `no_answer` and `busy` are missed, every other status
 * is in neither, and the total is accepted plus missed.
 */
module StatsService {
  import opened Wrappers
  import opened Records
  import opened Folds
  import opened Numeric
  import opened JsMap
  import opened Grouping
  import opened GroupedMaps
  import opened Sorting
  import opened Calendar
  import AnalyticsCommon
  import Opt = AnalyticsOptimized

  const OperatorNotFound: string := "Оператор не найден"
  /** `status` of an operator who is employed (operators also have a separate `statusWork`). */
  const Active: string := "active"
  const MissedStatuses: seq<string> := [Missed, NoAnswer, Busy]

  /** A call-centre operator as the service reads it. */
  datatype CentreOperator = CentreOperator(id: int, name: string, city: Option<string>, status: string, statusWork: string)

  /** A master as the dashboard reads it. */
  datatype MasterRow = MasterRow(id: int, statusWork: string)

  function HasId(id: int): CentreOperator -> bool
  {
    (op: CentreOperator) => op.id == id
  }

  /** `callcentreOperator.findUnique({ where: { id } })` */
  function FindOperator(roster: seq<CentreOperator>, id: int): (r: Option<CentreOperator>)
    ensures r.None? <==> forall i :: 0 <= i < |roster| ==> roster[i].id != id
    ensures r.Some? ==> r.value in roster && r.value.id == id
  {
    Find(roster, HasId(id))
  }

  // ------------------------------------------------------------------ period

  /**
   * The query of the two period reports: `startDate` read as an instant, and
   * `endDate` as the UTC day it names, since the service appends
   * `T23:59:59.999Z` to it. An absent or empty parameter is `None`.
   */
  datatype StatsQuery = StatsQuery(startDate: Option<Instant>, endDay: Option<int>)

  const DefaultSpanDays: int := 30

  /** The last millisecond of UTC day `d`. */
  function EndOfDay(d: int): (t: Instant)
    ensures AnalyticsCommon.DayOf(t) == d
    ensures AnalyticsCommon.DayOf(t + 1) == d + 1
  {
    d * MsPerDay + MsPerDay - 1
  }

  /** `start` and `end`: the given dates, or else thirty days ago and now. */
  function PeriodOf(now: Instant, q: StatsQuery): Window
  {
    Window(q.startDate.GetOr(now - DefaultSpanDays * MsPerDay),
           if q.endDay.Some? then EndOfDay(q.endDay.value) else now)
  }

  /**
   * The period holds exactly the instants from the start date (or thirty
   * days before now) through the whole of the end day (or now).
   */
  lemma PeriodCovers(now: Instant, q: StatsQuery, t: Instant)
    ensures InWindow(PeriodOf(now, q), t)
        <==> (if q.startDate.Some? then q.startDate.value <= t else now - 2592000000 <= t)
             && (if q.endDay.Some? then AnalyticsCommon.DayOf(t) <= q.endDay.value else t <= now)
  {
    if q.endDay.Some? {
      var d := q.endDay.value;
      assert t <= EndOfDay(d) <==> t < (d + 1) * MsPerDay;
    }
  }

  // ------------------------------------------------------ operator: calls

  /** `callWhere`: the operator's calls created in the period. */
  function CallIn(w: Window, operatorId: int): Call -> bool
  {
    (c: Call) => c.operatorId == operatorId && InWindow(w, c.dateCreate)
  }

  /** The calls of `callWhere` whose status satisfies `p`. */
  function CallStatusIn(w: Window, operatorId: int, p: string -> bool): Call -> bool
  {
    (c: Call) => c.operatorId == operatorId && InWindow(w, c.dateCreate) && p(c.status)
  }

  /** `{ ...callWhere, duration: { not: null } }` */
  function TimedCallIn(w: Window, operatorId: int): Call -> bool
  {
    (c: Call) => c.operatorId == operatorId && InWindow(w, c.dateCreate) && c.duration.Some?
  }

  function CallStatus(c: Call): string { c.status }
  function DurationOf(c: Call): int { OrZero(c.duration) }

  function IsAnswered(): string -> bool
  {
    (s: string) => s == Answered
  }

  function IsMissed(): string -> bool
  {
    (s: string) => s in MissedStatuses
  }

  function AnyStatus(): string -> bool
  {
    (s: string) => true
  }

  /** `callsStats.filter(answered).reduce(sum + count, 0)` */
  function AcceptedOf(stats: seq<Opt.StatusGroup>): int
  {
    SumKeyIf(stats, Opt.StatusKey, IsAnswered(), Opt.StatusCount)
  }

  /** `callsStats.filter(missed, no_answer or busy).reduce(sum + count, 0)` */
  function MissedOf(stats: seq<Opt.StatusGroup>): int
  {
    SumKeyIf(stats, Opt.StatusKey, IsMissed(), Opt.StatusCount)
  }

  datatype CallSummary = CallSummary(total: int, accepted: int, missed: int, acceptanceRate: int, avgDuration: int)

  /** The `calls` block of the operator report. */
  function CallSummaryOf(callsStats: seq<Opt.StatusGroup>, calls: seq<Call>, w: Window, operatorId: int): CallSummary
  {
    var accepted := AcceptedOf(callsStats);
    var missed := MissedOf(callsStats);
    var total := accepted + missed;
    CallSummary(total, accepted, missed, RoundedRate(accepted, total),
                RoundedMean(SumIf(calls, TimedCallIn(w, operatorId), DurationOf), CountIf(calls, TimedCallIn(w, operatorId))))
  }

  function IsKnownStatus(): string -> bool
  {
    (s: string) => s == Answered || s in MissedStatuses
  }

  lemma AnsweredNotMissed()
    ensures Answered !in MissedStatuses
  {
    assert Answered[0] != Missed[0] && Answered[0] != NoAnswer[0] && Answered[0] != Busy[0];
  }

  /**
   * With `callsStats` the status groups of the operator's calls in the
   * period, accepted and missed are the numbers of such calls with status
   * `answered` and with one of the three missed statuses.
   */
  lemma CallBuckets(callsStats: seq<Opt.StatusGroup>, calls: seq<Call>, w: Window, operatorId: int)
    requires IsGrouping(Filter(calls, CallIn(w, operatorId)), CallStatus, OneCall, callsStats, Opt.StatusKey, Opt.StatusCount)
    ensures AcceptedOf(callsStats) == CountIf(calls, CallStatusIn(w, operatorId, IsAnswered()))
    ensures MissedOf(callsStats) == CountIf(calls, CallStatusIn(w, operatorId, IsMissed()))
  {
    var sel := CallIn(w, operatorId);
    GroupedCountOfFilter(calls, sel, CallStatus, OneCall, callsStats, Opt.StatusKey, Opt.StatusCount,
                         IsAnswered(), CallStatusIn(w, operatorId, IsAnswered()));
    GroupedCountOfFilter(calls, sel, CallStatus, OneCall, callsStats, Opt.StatusKey, Opt.StatusCount,
                         IsMissed(), CallStatusIn(w, operatorId, IsMissed()));
  }

  /**
   * Accepted plus missed never exceeds the operator's calls in the period,
   * and reaches them exactly when every such call has one of the four
   * statuses.
   */
  lemma BucketsTotal(calls: seq<Call>, w: Window, operatorId: int)
    ensures var n := CountIf(calls, CallStatusIn(w, operatorId, IsAnswered())) + CountIf(calls, CallStatusIn(w, operatorId, IsMissed()));
            && n <= CountIf(calls, CallIn(w, operatorId))
            && (n == CountIf(calls, CallIn(w, operatorId))
                <==> forall c :: c in calls && CallIn(w, operatorId)(c) ==> c.status == Answered || c.status in MissedStatuses)
  {
    var known := CallStatusIn(w, operatorId, IsKnownStatus());
    AnsweredNotMissed();
    CountIfSplit(calls, known, CallStatusIn(w, operatorId, IsAnswered()), CallStatusIn(w, operatorId, IsMissed()));
    CountIfEqualIff(calls, known, CallIn(w, operatorId));
  }

  /**
   * The `calls` block of the operator report: accepted and missed count the
   * operator's calls of the period in the two buckets, the total is their
   * sum, which reaches the number of the operator's calls in the period
   * exactly when every such call has one of the four statuses, and the rate
   * is a percentage.
   */
  lemma CallSummaryCounts(callsStats: seq<Opt.StatusGroup>, calls: seq<Call>, w: Window, operatorId: int)
    requires IsGrouping(Filter(calls, CallIn(w, operatorId)), CallStatus, OneCall, callsStats, Opt.StatusKey, Opt.StatusCount)
    ensures var s := CallSummaryOf(callsStats, calls, w, operatorId);
            && s.accepted == CountIf(calls, CallStatusIn(w, operatorId, IsAnswered()))
            && s.missed == CountIf(calls, CallStatusIn(w, operatorId, IsMissed()))
            && s.total == s.accepted + s.missed <= CountIf(calls, CallIn(w, operatorId))
            && (s.total == CountIf(calls, CallIn(w, operatorId))
                <==> forall c :: c in calls && CallIn(w, operatorId)(c) ==> c.status == Answered || c.status in MissedStatuses)
            && 0 <= s.acceptanceRate <= 100
  {
    CallBuckets(callsStats, calls, w, operatorId);
    BucketsTotal(calls, w, operatorId);
  }

  // ----------------------------------------------------- operator: orders

  /** `orderWhere`: the orders the operator created in the period. */
  function OrderIn(w: Window, operatorId: int): Order -> bool
  {
    (o: Order) => o.operatorNameId == Some(operatorId) && InWindow(w, o.createDate)
  }

  function OrderStatusIn(w: Window, operatorId: int, status: string): Order -> bool
  {
    (o: Order) => o.operatorNameId == Some(operatorId) && InWindow(w, o.createDate) && o.statusOrder == status
  }

  function OrderStatus(o: Order): string { o.statusOrder }

  /** `orders.total` and `orders.byStatus`, the record `{ [statusOrder]: count }`. */
  datatype OrderSummary = OrderSummary(total: int, byStatus: seq<Entry<string, int>>)

  /** The record `byStatus` that the `reduce` over the status groups fills. */
  function ByStatusOf(ordersByStatus: seq<Opt.StatusGroup>): seq<Entry<string, int>>
  {
    FlatOf(ordersByStatus, Opt.StatusKey, Opt.StatusCount)
  }

  /** Each status's entry of `byStatus` is the number of the operator's orders of the period with that status. */
  lemma ByStatusCounts(orders: seq<Order>, w: Window, operatorId: int, ordersByStatus: seq<Opt.StatusGroup>, status: string)
    requires IsGrouping(Filter(orders, OrderIn(w, operatorId)), OrderStatus, OneOrder, ordersByStatus, Opt.StatusKey, Opt.StatusCount)
    ensures LookupOr0(ByStatusOf(ordersByStatus), status, IntValue) == CountIf(orders, OrderStatusIn(w, operatorId, status))
  {
    FlatLookup(ordersByStatus, Opt.StatusKey, Opt.StatusCount, IntValue, Opt.StatusCount, status);
    GroupedCountOfFilter(orders, OrderIn(w, operatorId), OrderStatus, OneOrder, ordersByStatus, Opt.StatusKey, Opt.StatusCount,
                         KeyIs(status), OrderStatusIn(w, operatorId, status));
  }

  /**
   * `byStatus` has an entry for a status exactly when the operator has an
   * order of the period with that status (a database group is never empty).
   */
  lemma ByStatusKeys(orders: seq<Order>, w: Window, operatorId: int, ordersByStatus: seq<Opt.StatusGroup>, status: string)
    requires IsGrouping(Filter(orders, OrderIn(w, operatorId)), OrderStatus, OneOrder, ordersByStatus, Opt.StatusKey, Opt.StatusCount)
    requires forall g :: g in ordersByStatus ==> g.count > 0
    ensures status in Keys(ByStatusOf(ordersByStatus)) <==> exists o :: o in orders && OrderStatusIn(w, operatorId, status)(o)
  {
    var rows := Filter(orders, OrderIn(w, operatorId));
    if status in Keys(ByStatusOf(ordersByStatus)) {
      FlatKeys(ordersByStatus, Opt.StatusKey, Opt.StatusCount, status);
      var i :| 0 <= i < |ordersByStatus| && Opt.StatusKey(ordersByStatus[i]) == status;
      assert ordersByStatus[i] in ordersByStatus;
      SumWithKeyNonZero(rows, OrderStatus, OneOrder, status);
      var o :| o in rows && OrderStatus(o) == status;
      assert OrderStatusIn(w, operatorId, status)(o);
    }
    if exists o :: o in orders && OrderStatusIn(w, operatorId, status)(o) {
      var o :| o in orders && OrderStatusIn(w, operatorId, status)(o);
      assert o in rows;
      var i :| 0 <= i < |ordersByStatus| && Opt.StatusKey(ordersByStatus[i]) == OrderStatus(o);
      FlatGet(ordersByStatus, Opt.StatusKey, Opt.StatusCount, i);
    }
  }

  /** The entries of `byStatus` add up to the operator's order total. */
  lemma ByStatusTotal(orders: seq<Order>, w: Window, operatorId: int, ordersByStatus: seq<Opt.StatusGroup>)
    requires IsGrouping(Filter(orders, OrderIn(w, operatorId)), OrderStatus, OneOrder, ordersByStatus, Opt.StatusKey, Opt.StatusCount)
    ensures SumValues(ByStatusOf(ordersByStatus), IntValue) == CountIf(orders, OrderIn(w, operatorId))
  {
    FlatTotal(ordersByStatus, Opt.StatusKey, Opt.StatusCount, IntValue, Opt.StatusCount);
    SumKeyIfAll(ordersByStatus, Opt.StatusKey, AnyStatus(), Opt.StatusCount);
    GroupedCountOfFilter(orders, OrderIn(w, operatorId), OrderStatus, OneOrder, ordersByStatus, Opt.StatusKey, Opt.StatusCount,
                         AnyStatus(), OrderIn(w, operatorId));
  }

  // ----------------------------------------------- operator: daily calls

  /** A group of `groupBy({ by: ['dateCreate'] })`: one creation instant and its number of calls. */
  datatype InstantGroup = InstantGroup(dateCreate: Instant, count: int)

  function InstantKey(g: InstantGroup): Instant { g.dateCreate }
  function InstantCount(g: InstantGroup): int { g.count }
  function CallInstant(c: Call): Instant { c.dateCreate }

  /** One element of `dailyStats`: a UTC day and a number of calls. */
  datatype DayCalls = DayCalls(date: int, calls: int)

  const DailySpanDays: int := 7

  /** From seven days before now to the end of the period. */
  function DailyWindow(now: Instant, w: Window): Window
  {
    Window(now - DailySpanDays * MsPerDay, w.end)
  }

  /** The answered calls of the operator the daily query selects. */
  function DailyCallIn(dw: Window, operatorId: int): Call -> bool
  {
    (c: Call) => c.operatorId == operatorId && c.status == Answered && InWindow(dw, c.dateCreate)
  }

  function DailyCallOn(dw: Window, operatorId: int, d: int): Call -> bool
  {
    (c: Call) => c.operatorId == operatorId && c.status == Answered && InWindow(dw, c.dateCreate)
                 && AnalyticsCommon.DayOf(c.dateCreate) == d
  }

  function DayIs(d: int): Instant -> bool
  {
    (t: Instant) => AnalyticsCommon.DayOf(t) == d
  }

  function GroupDayCalls(g: InstantGroup): DayCalls
  {
    DayCalls(AnalyticsCommon.DayOf(g.dateCreate), g.count)
  }

  /**
   * `dailyStats` as the service writes it: one element per group of
   * creation instants, labelled with the group's day.
   */
  function DailyStatsAsWritten(gs: seq<InstantGroup>): (r: seq<DayCalls>)
    ensures |r| == |gs|
    ensures forall i :: 0 <= i < |gs| ==> r[i].date == AnalyticsCommon.DayOf(gs[i].dateCreate) && r[i].calls == gs[i].count
  {
    MapSeq(gs, GroupDayCalls)
  }

  /** `acc[day] = (acc[day] || 0) + n` */
  function AddCalls(m: seq<Entry<int, int>>, d: int, n: int): seq<Entry<int, int>>
  {
    Set(m, d, Get(m, d).GetOr(0) + n)
  }

  /** The per-day record the groups add up to: the day counts the daily statistics are meant to show. */
  function DailyCountsOf(gs: seq<InstantGroup>): seq<Entry<int, int>>
  {
    if gs == [] then []
    else
      var g := gs[|gs| - 1];
      AddCalls(DailyCountsOf(gs[..|gs| - 1]), AnalyticsCommon.DayOf(g.dateCreate), g.count)
  }

  function EntryDayCalls(e: Entry<int, int>): DayCalls
  {
    DayCalls(e.key, e.value)
  }

  function DailyStatsOf(m: seq<Entry<int, int>>): seq<DayCalls>
  {
    MapSeq(m, EntryDayCalls)
  }

  /** Adds each group's count to the entry of its day. */
  method MergeByDay(gs: seq<InstantGroup>) returns (m: seq<Entry<int, int>>)
    ensures m == DailyCountsOf(gs)
  {
    m := [];
    var i := 0;
    while i < |gs|
      invariant 0 <= i <= |gs|
      invariant m == DailyCountsOf(gs[..i])
    {
      var d := AnalyticsCommon.DayOf(gs[i].dateCreate);
      var prior := Get(m, d).GetOr(0);
      m := Set(m, d, prior + gs[i].count);
      DailyCountsNext(gs, i);
      i := i + 1;
    }
    assert gs[..i] == gs;
  }

  lemma DailyCountsNext(gs: seq<InstantGroup>, i: nat)
    requires i < |gs|
    ensures DailyCountsOf(gs[..i + 1])
         == AddCalls(DailyCountsOf(gs[..i]), AnalyticsCommon.DayOf(gs[i].dateCreate), gs[i].count)
  {
    assert gs[..i + 1][..i] == gs[..i];
  }

  lemma DailyCountsLast(gs: seq<InstantGroup>)
    requires gs != []
    ensures DailyCountsOf(gs)
         == AddCalls(DailyCountsOf(gs[..|gs| - 1]), AnalyticsCommon.DayOf(gs[|gs| - 1].dateCreate), gs[|gs| - 1].count)
  {
  }

  lemma AddCallsGet(m: seq<Entry<int, int>>, e: int, n: int, d: int)
    ensures Get(AddCalls(m, e, n), d).GetOr(0) == Get(m, d).GetOr(0) + (if e == d then n else 0)
  {
    var v := Get(m, e).GetOr(0) + n;
    if e != d {
      SetGetOther(m, e, v, d);
    } else {
      SetGet(m, e, v);
    }
  }

  /** A day's entry is the sum of the counts of the groups on that day. */
  lemma {:induction false} DailyCountsLookup(gs: seq<InstantGroup>, d: int)
    ensures Get(DailyCountsOf(gs), d).GetOr(0) == SumKeyIf(gs, InstantKey, DayIs(d), InstantCount)
  {
    if gs != [] {
      var init, g := gs[..|gs| - 1], gs[|gs| - 1];
      DailyCountsLookup(init, d);
      AddCallsGet(DailyCountsOf(init), AnalyticsCommon.DayOf(g.dateCreate), g.count, d);
      SumKeyIfLast(init, g, InstantKey, DayIs(d), InstantCount);
      assert gs == init + [g];
    }
  }

  /** The record has an entry for a day exactly when some group falls on it. */
  lemma {:induction false} DailyCountsKeys(gs: seq<InstantGroup>, d: int)
    ensures d in Keys(DailyCountsOf(gs)) <==> exists i :: 0 <= i < |gs| && AnalyticsCommon.DayOf(gs[i].dateCreate) == d
  {
    if gs != [] {
      var init, g := gs[..|gs| - 1], gs[|gs| - 1];
      var m0 := DailyCountsOf(init);
      var e := AnalyticsCommon.DayOf(g.dateCreate);
      DailyCountsLast(gs);
      DailyCountsKeys(init, d);
      SetKeysMember(m0, e, Get(m0, e).GetOr(0) + g.count, d);
      SplitLast(gs);
      DayOccursLast(init, g, d);
    }
  }

  /** A day occurs among the groups when it occurs before the last one or is the last one's day. */
  lemma DayOccursLast(init: seq<InstantGroup>, g: InstantGroup, d: int)
    ensures (exists i :: 0 <= i < |init + [g]| && AnalyticsCommon.DayOf((init + [g])[i].dateCreate) == d)
        <==> (exists i :: 0 <= i < |init| && AnalyticsCommon.DayOf(init[i].dateCreate) == d)
             || AnalyticsCommon.DayOf(g.dateCreate) == d
  {
    var gs := init + [g];
    assert gs[|init|] == g;
    if exists i :: 0 <= i < |gs| && AnalyticsCommon.DayOf(gs[i].dateCreate) == d {
      var i :| 0 <= i < |gs| && AnalyticsCommon.DayOf(gs[i].dateCreate) == d;
      if i < |init| { assert init[i] == gs[i]; }
    }
    if exists i :: 0 <= i < |init| && AnalyticsCommon.DayOf(init[i].dateCreate) == d {
      var i :| 0 <= i < |init| && AnalyticsCommon.DayOf(init[i].dateCreate) == d;
      assert gs[i] == init[i];
    }
  }

  /** No day has two entries. */
  lemma {:induction false} DailyCountsUnique(gs: seq<InstantGroup>)
    ensures UniqueKeys(DailyCountsOf(gs))
  {
    if gs != [] {
      var init, g := gs[..|gs| - 1], gs[|gs| - 1];
      DailyCountsUnique(init);
      DailyCountsLast(gs);
      var e := AnalyticsCommon.DayOf(g.dateCreate);
      SetKeepsDistinct(DailyCountsOf(init), e, Get(DailyCountsOf(init), e).GetOr(0) + g.count);
    }
  }

  lemma DayOfMonotone(s: Instant, t: Instant)
    requires s <= t
    ensures AnalyticsCommon.DayOf(s) <= AnalyticsCommon.DayOf(t)
  {
  }

  predicate KeysAscending(m: seq<Entry<int, int>>)
  {
    forall i, j :: 0 <= i < j < |m| ==> m[i].key < m[j].key
  }

  /** Updating a day already present keeps every key in its place. */
  lemma SetExistingAscending(m: seq<Entry<int, int>>, e: int, v: int)
    requires KeysAscending(m)
    requires e in Keys(m)
    ensures KeysAscending(Set(m, e, v))
  {
    var m' := Set(m, e, v);
    SetKeys(m, e, v);
    forall i | 0 <= i < |m'|
      ensures m'[i].key == m[i].key
    {
      KeysAt(m', i);
      KeysAt(m, i);
    }
  }

  /** A new day above every present one goes to the end. */
  lemma SetNewAscending(m: seq<Entry<int, int>>, e: int, v: int)
    requires KeysAscending(m)
    requires forall i :: 0 <= i < |m| ==> m[i].key < e
    requires e !in Keys(m)
    ensures KeysAscending(Set(m, e, v))
  {
    SetNewKey(m, e, v);
    assert Set(m, e, v) == m + [Entry(e, v)];
  }

  /** Every day of the record is the day of one of the groups, so not after the last group's day. */
  lemma DailyCountsBelow(gs: seq<InstantGroup>, t: Instant)
    requires forall i :: 0 <= i < |gs| ==> gs[i].dateCreate <= t
    ensures var m := DailyCountsOf(gs); forall i :: 0 <= i < |m| ==> m[i].key <= AnalyticsCommon.DayOf(t)
  {
    var m := DailyCountsOf(gs);
    forall i | 0 <= i < |m|
      ensures m[i].key <= AnalyticsCommon.DayOf(t)
    {
      KeysAt(m, i);
      DailyCountsKeys(gs, m[i].key);
      var k :| 0 <= k < |gs| && AnalyticsCommon.DayOf(gs[k].dateCreate) == m[i].key;
      DayOfMonotone(gs[k].dateCreate, t);
    }
  }

  /** Groups in ascending order of instant (`orderBy: { dateCreate: 'asc' }`) give days in strictly ascending order. */
  predicate InstantsAscending(gs: seq<InstantGroup>)
  {
    forall i, j :: 0 <= i < j < |gs| ==> gs[i].dateCreate <= gs[j].dateCreate
  }

  /** A prefix of ascending groups is ascending, and no group of it is after the last one. */
  lemma InstantsAscendingInit(init: seq<InstantGroup>, g: InstantGroup)
    requires InstantsAscending(init + [g])
    ensures InstantsAscending(init)
    ensures forall i :: 0 <= i < |init| ==> init[i].dateCreate <= g.dateCreate
  {
    var gs := init + [g];
    forall i | 0 <= i < |init|
      ensures init[i].dateCreate <= g.dateCreate
    {
      assert gs[i] == init[i] && gs[|init|] == g;
    }
    forall i, j | 0 <= i < j < |init|
      ensures init[i].dateCreate <= init[j].dateCreate
    {
      assert gs[i] == init[i] && gs[j] == init[j];
    }
  }

  lemma {:induction false} DailyCountsAscending(gs: seq<InstantGroup>)
    requires InstantsAscending(gs)
    ensures KeysAscending(DailyCountsOf(gs))
  {
    if gs != [] {
      var init, g := gs[..|gs| - 1], gs[|gs| - 1];
      assert gs == init + [g];
      InstantsAscendingInit(init, g);
      DailyCountsAscending(init);
      DailyCountsLast(gs);
      DailyCountsBelow(init, g.dateCreate);
      AddCallsAscending(DailyCountsOf(init), AnalyticsCommon.DayOf(g.dateCreate), g.count);
    }
  }

  /** Adding calls on a day not below any day of an ascending record keeps it ascending. */
  lemma AddCallsAscending(m: seq<Entry<int, int>>, e: int, n: int)
    requires KeysAscending(m)
    requires forall i :: 0 <= i < |m| ==> m[i].key <= e
    ensures KeysAscending(AddCalls(m, e, n))
  {
    var v := Get(m, e).GetOr(0) + n;
    if e in Keys(m) {
      SetExistingAscending(m, e, v);
    } else {
      forall i | 0 <= i < |m|
        ensures m[i].key < e
      {
        KeysAt(m, i);
        assert Keys(m)[i] in Keys(m);
      }
      SetNewAscending(m, e, v);
    }
  }

  /** The daily groups of the operator's answered calls, as the database returns them. */
  ghost predicate DailyGrouping(calls: seq<Call>, dw: Window, operatorId: int, gs: seq<InstantGroup>)
  {
    && IsGrouping(Filter(calls, DailyCallIn(dw, operatorId)), CallInstant, OneCall, gs, InstantKey, InstantCount)
    && (forall g :: g in gs ==> g.count > 0)
  }

  /** Each day's count is the number of the operator's answered calls of that day in the daily window. */
  lemma DailyStatsCounts(calls: seq<Call>, dw: Window, operatorId: int, gs: seq<InstantGroup>)
    requires DailyGrouping(calls, dw, operatorId, gs)
    ensures var r := DailyStatsOf(DailyCountsOf(gs));
            forall i :: 0 <= i < |r| ==> r[i].calls == CountIf(calls, DailyCallOn(dw, operatorId, r[i].date))
  {
    var m := DailyCountsOf(gs);
    var r := DailyStatsOf(m);
    DailyCountsUnique(gs);
    forall i | 0 <= i < |r|
      ensures r[i].calls == CountIf(calls, DailyCallOn(dw, operatorId, r[i].date))
    {
      var d := m[i].key;
      GetAt(m, i);
      DailyCountsLookup(gs, d);
      GroupedCountOfFilter(calls, DailyCallIn(dw, operatorId), CallInstant, OneCall, gs, InstantKey, InstantCount,
                           DayIs(d), DailyCallOn(dw, operatorId, d));
    }
  }

  /** A day appears in the daily statistics exactly when the operator answered a call on it in the daily window. */
  lemma DailyStatsDays(calls: seq<Call>, dw: Window, operatorId: int, gs: seq<InstantGroup>, d: int)
    requires DailyGrouping(calls, dw, operatorId, gs)
    ensures var r := DailyStatsOf(DailyCountsOf(gs));
            (exists i :: 0 <= i < |r| && r[i].date == d) <==> exists c :: c in calls && DailyCallOn(dw, operatorId, d)(c)
  {
    var r := DailyStatsOf(DailyCountsOf(gs));
    if exists i :: 0 <= i < |r| && r[i].date == d {
      var i :| 0 <= i < |r| && r[i].date == d;
      DailyDayHasCall(calls, dw, operatorId, gs, d, i);
    }
    if exists c :: c in calls && DailyCallOn(dw, operatorId, d)(c) {
      var c :| c in calls && DailyCallOn(dw, operatorId, d)(c);
      DailyCallHasDay(calls, dw, operatorId, gs, c);
    }
  }

  /** A day in the daily statistics has an answered call of the operator on it. */
  lemma {:induction false} DailyDayHasCall(calls: seq<Call>, dw: Window, operatorId: int, gs: seq<InstantGroup>, d: int, i: nat)
    requires DailyGrouping(calls, dw, operatorId, gs)
    requires i < |DailyStatsOf(DailyCountsOf(gs))| && DailyStatsOf(DailyCountsOf(gs))[i].date == d
    ensures exists c :: c in calls && DailyCallOn(dw, operatorId, d)(c)
  {
    var m := DailyCountsOf(gs);
    var rows := Filter(calls, DailyCallIn(dw, operatorId));
    DailyCountsKeys(gs, d);
    KeysAt(m, i);
    var k :| 0 <= k < |gs| && AnalyticsCommon.DayOf(gs[k].dateCreate) == d;
    assert gs[k] in gs;
    SumWithKeyNonZero(rows, CallInstant, OneCall, gs[k].dateCreate);
    var c :| c in rows && CallInstant(c) == gs[k].dateCreate;
    assert DailyCallOn(dw, operatorId, d)(c);
  }

  /** The day of an answered call of the operator in the daily window appears in the daily statistics. */
  lemma {:induction false} DailyCallHasDay(calls: seq<Call>, dw: Window, operatorId: int, gs: seq<InstantGroup>, c: Call)
    requires DailyGrouping(calls, dw, operatorId, gs)
    requires c in calls && DailyCallIn(dw, operatorId)(c)
    ensures var r := DailyStatsOf(DailyCountsOf(gs));
            exists i :: 0 <= i < |r| && r[i].date == AnalyticsCommon.DayOf(c.dateCreate)
  {
    var m := DailyCountsOf(gs);
    var d := AnalyticsCommon.DayOf(c.dateCreate);
    var rows := Filter(calls, DailyCallIn(dw, operatorId));
    assert c in rows;
    var k :| 0 <= k < |gs| && InstantKey(gs[k]) == CallInstant(c);
    DailyCountsKeys(gs, d);
    assert d in Keys(m);
    var j :| 0 <= j < |Keys(m)| && Keys(m)[j] == d;
    KeysAt(m, j);
    assert DailyStatsOf(m)[j].date == d;
  }

  /** Every day appears once, and with a positive count. */
  lemma DailyStatsDistinct(calls: seq<Call>, dw: Window, operatorId: int, gs: seq<InstantGroup>)
    requires DailyGrouping(calls, dw, operatorId, gs)
    ensures var r := DailyStatsOf(DailyCountsOf(gs));
            && (forall i, j :: 0 <= i < j < |r| ==> r[i].date != r[j].date)
            && (forall i :: 0 <= i < |r| ==> r[i].calls > 0)
  {
    var m := DailyCountsOf(gs);
    var r := DailyStatsOf(m);
    DailyCountsUnique(gs);
    DailyStatsCounts(calls, dw, operatorId, gs);
    forall i | 0 <= i < |r|
      ensures r[i].calls > 0
    {
      var d := r[i].date;
      DailyStatsDays(calls, dw, operatorId, gs, d);
      var c :| c in calls && DailyCallOn(dw, operatorId, d)(c);
      assert c in Filter(calls, DailyCallOn(dw, operatorId, d));
      FilterLength(calls, DailyCallOn(dw, operatorId, d));
    }
  }

  // Two answered calls of operator 7 on 2024-01-01 (day 19723), at 10:00 and 11:00 UTC.
  function SampleDailyCalls(): seq<Call>
  {
    [Call(1, 7, Answered, Some(60), 1704103200000, None, None),
     Call(2, 7, Answered, Some(30), 1704106800000, None, None)]
  }

  /** The daily window of that day. */
  function SampleDailyWindow(): Window { Window(1704067200000, 1704153599999) }

  /** What `groupBy({ by: ['dateCreate'] })` returns for them: two instants, one call each. */
  function SampleInstantGroups(): seq<InstantGroup>
  {
    [InstantGroup(1704103200000, 1), InstantGroup(1704106800000, 1)]
  }

  lemma SampleDailyGrouping()
    ensures DailyGrouping(SampleDailyCalls(), SampleDailyWindow(), 7, SampleInstantGroups())
    ensures CountIf(SampleDailyCalls(), DailyCallOn(SampleDailyWindow(), 7, 19723)) == 2
  {
    var calls, dw, gs := SampleDailyCalls(), SampleDailyWindow(), SampleInstantGroups();
    var c1, c2 := calls[0], calls[1];
    assert DailyCallIn(dw, 7)(c1) && DailyCallIn(dw, 7)(c2);
    assert calls[1..] == [c2] && [c2][1..] == [];
    var rows := Filter(calls, DailyCallIn(dw, 7));
    assert rows == calls;
    assert SumWithKey([c2], CallInstant, OneCall, c1.dateCreate) == 0;
    assert SumWithKey(rows, CallInstant, OneCall, c1.dateCreate) == 1;
    assert SumWithKey([c2], CallInstant, OneCall, c2.dateCreate) == 1;
    assert SumWithKey(rows, CallInstant, OneCall, c2.dateCreate) == 1;
    assert InstantKey(gs[0]) == CallInstant(c1) && InstantKey(gs[1]) == CallInstant(c2);
    assert AnalyticsCommon.DayOf(c1.dateCreate) == 19723 && AnalyticsCommon.DayOf(c2.dateCreate) == 19723;
    assert DailyCallOn(dw, 7, 19723)(c1) && DailyCallOn(dw, 7, 19723)(c2);
  }

  /**
   * As written, the two calls of the same day come out as two elements with
   * the same date and one call each, although the operator answered two
   * calls that day.
   */
  lemma DailyStatsRepeatDay()
    ensures DailyGrouping(SampleDailyCalls(), SampleDailyWindow(), 7, SampleInstantGroups())
    ensures var r := DailyStatsAsWritten(SampleInstantGroups());
            && r == [DayCalls(19723, 1), DayCalls(19723, 1)]
            && r[0].date == r[1].date
            && r[0].calls != CountIf(SampleDailyCalls(), DailyCallOn(SampleDailyWindow(), 7, r[0].date))
  {
    SampleDailyGrouping();
    var gs := SampleInstantGroups();
    assert AnalyticsCommon.DayOf(gs[0].dateCreate) == 19723 && AnalyticsCommon.DayOf(gs[1].dateCreate) == 19723;
    assert gs[1..] == [gs[1]] && [gs[1]][1..] == [];
  }

  /** Merged by day, the same groups give the one day with its two calls. */
  lemma DailyStatsMergedDay()
    ensures DailyStatsOf(DailyCountsOf(SampleInstantGroups())) == [DayCalls(19723, 2)]
  {
    var gs := SampleInstantGroups();
    assert AnalyticsCommon.DayOf(gs[0].dateCreate) == 19723 && AnalyticsCommon.DayOf(gs[1].dateCreate) == 19723;
    assert gs[..1] == [gs[0]] && [gs[0]][..0] == [];
    var m1 := DailyCountsOf(gs[..1]);
    assert DailyCountsOf(gs[..1][..0]) == [];
    assert m1 == AddCalls([], 19723, 1);
    assert Set([], 19723, 1) == [Entry(19723, 1)];
    assert m1 == [Entry(19723, 1)];
    assert DailyCountsOf(gs) == AddCalls(m1, 19723, 1);
    assert Get(m1, 19723) == Some(1);
    assert AddCalls(m1, 19723, 1) == [Entry(19723, 2)];
  }

  // ------------------------------------------------- city and campaign counts

  /** A group of `groupBy({ by: ['city'] })` or `groupBy({ by: ['rk'] })`. */
  datatype KeyGroup = KeyGroup(key: Option<string>, count: int)

  function GroupKey(g: KeyGroup): Option<string> { g.key }
  function GroupCount(g: KeyGroup): int { g.count }

  /** An element of `cityStats`, `rkStats` or `operatorStats`: a name and a number of calls. */
  datatype NamedCount = NamedCount(name: string, calls: int)

  function NamedCalls(n: NamedCount): int { n.calls }

  /** `name || 'Не указан'`: a missing or empty name becomes the placeholder. */
  function NameOr(name: Option<string>): (r: string)
    ensures r == Unspecified || name == Some(r)
    ensures r != ""
    ensures name.Some? && name.value != "" ==> r == name.value
  {
    if name.Some? && name.value != "" then name.value else Unspecified
  }

  function Named(g: KeyGroup): NamedCount
  {
    NamedCount(NameOr(g.key), g.count)
  }

  /** `stats.map(stat => ({ name: stat.key || 'Не указан', calls: stat._count?.id || 0 }))` */
  function NamedCounts(gs: seq<KeyGroup>): seq<NamedCount>
  {
    MapSeq(gs, Named)
  }

  /** The calls a selection takes whose key column is `k`. */
  function KeyedIn(sel: Call -> bool, key: Call -> Option<string>, k: Option<string>): Call -> bool
  {
    (c: Call) => sel(c) && key(c) == k
  }

  function AnyName(): Option<string> -> bool
  {
    (k: Option<string>) => true
  }

  function CallCity(c: Call): Option<string> { c.city }
  function CallRk(c: Call): Option<string> { c.rk }

  /** The database's order `_count: 'desc'` survives the renaming. */
  lemma NamedCountsSorted(gs: seq<KeyGroup>)
    requires SortedDesc(gs, GroupCount)
    ensures SortedDesc(NamedCounts(gs), NamedCalls)
  {
  }

  /** Each element counts the selected calls with its group's key, under the group's name or the placeholder. */
  lemma NamedCountsAt(calls: seq<Call>, sel: Call -> bool, key: Call -> Option<string>, gs: seq<KeyGroup>, i: nat)
    requires IsGrouping(Filter(calls, sel), key, OneCall, gs, GroupKey, GroupCount)
    requires i < |gs|
    ensures NamedCounts(gs)[i].calls == CountIf(calls, KeyedIn(sel, key, gs[i].key))
    ensures NamedCounts(gs)[i].name == NameOr(gs[i].key)
  {
    GroupedCountOfFilter(calls, sel, key, OneCall, gs, GroupKey, GroupCount, KeyIs(gs[i].key), KeyedIn(sel, key, gs[i].key));
    SumKeyIfSingle(gs, GroupKey, KeyIs(gs[i].key), GroupCount, i);
  }

  lemma {:induction false} NamedCountsSum(gs: seq<KeyGroup>)
    ensures Sum(NamedCounts(gs), NamedCalls) == Sum(gs, GroupCount)
  {
    if gs != [] {
      NamedCountsSum(gs[1..]);
      assert NamedCounts(gs)[1..] == NamedCounts(gs[1..]);
    }
  }

  /** The elements add up to the number of selected calls. */
  lemma NamedCountsTotal(calls: seq<Call>, sel: Call -> bool, key: Call -> Option<string>, gs: seq<KeyGroup>)
    requires IsGrouping(Filter(calls, sel), key, OneCall, gs, GroupKey, GroupCount)
    ensures Sum(NamedCounts(gs), NamedCalls) == CountIf(calls, sel)
  {
    NamedCountsSum(gs);
    SumKeyIfAll(gs, GroupKey, AnyName(), GroupCount);
    GroupedCountOfFilter(calls, sel, key, OneCall, gs, GroupKey, GroupCount, AnyName(), sel);
  }

  // ------------------------------------------------------ operator report

  datatype OperatorSummary = OperatorSummary(id: int, name: string, city: Option<string>, statusWork: string)

  datatype OperatorReport = OperatorReport(
    operator: OperatorSummary,
    period: Window,
    calls: CallSummary,
    orders: OrderSummary,
    dailyStats: seq<DayCalls>,
    cityStats: seq<NamedCount>,
    rkStats: seq<NamedCount>)

  /** The grouped results the operator report is assembled from. */
  datatype OperatorGroups = OperatorGroups(
    callsStats: seq<Opt.StatusGroup>,
    ordersByStatus: seq<Opt.StatusGroup>,
    dailyStats: seq<InstantGroup>,
    cityStats: seq<KeyGroup>,
    rkStats: seq<KeyGroup>)

  /** The answered calls of the operator in the period, which the city and campaign groups count. */
  function AnsweredIn(w: Window, operatorId: int): Call -> bool
  {
    CallStatusIn(w, operatorId, IsAnswered())
  }

  /** The report of a found operator. */
  function OperatorReportOf(op: CentreOperator, now: Instant, q: StatsQuery, calls: seq<Call>, orders: seq<Order>,
                            g: OperatorGroups): OperatorReport
  {
    var w := PeriodOf(now, q);
    OperatorReport(
      OperatorSummary(op.id, op.name, op.city, op.statusWork),
      w,
      CallSummaryOf(g.callsStats, calls, w, op.id),
      OrderSummary(CountIf(orders, OrderIn(w, op.id)), ByStatusOf(g.ordersByStatus)),
      DailyStatsOf(DailyCountsOf(g.dailyStats)),
      NamedCounts(g.cityStats),
      NamedCounts(g.rkStats))
  }

  /** The groups of the operator report are those of the operator's rows. */
  ghost predicate OperatorGroupings(now: Instant, q: StatsQuery, operatorId: int, calls: seq<Call>, orders: seq<Order>,
                                    g: OperatorGroups)
  {
    var w := PeriodOf(now, q);
    && IsGrouping(Filter(calls, CallIn(w, operatorId)), CallStatus, OneCall, g.callsStats, Opt.StatusKey, Opt.StatusCount)
    && IsGrouping(Filter(orders, OrderIn(w, operatorId)), OrderStatus, OneOrder, g.ordersByStatus, Opt.StatusKey, Opt.StatusCount)
    && DailyGrouping(calls, DailyWindow(now, w), operatorId, g.dailyStats)
    && IsGrouping(Filter(calls, AnsweredIn(w, operatorId)), CallCity, OneCall, g.cityStats, GroupKey, GroupCount)
    && IsGrouping(Filter(calls, AnsweredIn(w, operatorId)), CallRk, OneCall, g.rkStats, GroupKey, GroupCount)
  }

  /**
   * `getOperatorStats`: an unknown operator is `NotFoundException` before
   * anything is counted; otherwise the report of that operator.
   */
  method GetOperatorStats(now: Instant, q: StatsQuery, operatorId: int, roster: seq<CentreOperator>,
                          calls: seq<Call>, orders: seq<Order>, g: OperatorGroups) returns (r: Result<OperatorReport>)
    ensures r.Failure? <==> forall i :: 0 <= i < |roster| ==> roster[i].id != operatorId
    ensures r.Failure? ==> r.error == OperatorNotFound
    ensures r.Success? ==> r.value == OperatorReportOf(FindOperator(roster, operatorId).value, now, q, calls, orders, g)
    ensures r.Success? ==> r.value.operator.id == operatorId
    ensures r.Success? ==> var w := PeriodOf(now, q);
              && r.value.calls.acceptanceRate == RoundedRate(r.value.calls.accepted, r.value.calls.total)
              && r.value.calls.avgDuration
                 == RoundedMean(SumIf(calls, TimedCallIn(w, operatorId), DurationOf), CountIf(calls, TimedCallIn(w, operatorId)))
              && r.value.orders.total == CountIf(orders, OrderIn(w, operatorId))
    ensures r.Success? ==> r.value.dailyStats == DailyStatsOf(DailyCountsOf(g.dailyStats))
  {
    var found := FindOperator(roster, operatorId);
    if found.None? {
      return Failure(OperatorNotFound);
    }
    var op := found.value;
    var w := PeriodOf(now, q);
    var byStatus := FillFlat(g.ordersByStatus, Opt.StatusKey, Opt.StatusCount);
    var days := MergeByDay(g.dailyStats);
    r := Success(OperatorReport(
      OperatorSummary(op.id, op.name, op.city, op.statusWork),
      w,
      CallSummaryOf(g.callsStats, calls, w, op.id),
      OrderSummary(CountIf(orders, OrderIn(w, op.id)), byStatus),
      DailyStatsOf(days),
      NamedCounts(g.cityStats),
      NamedCounts(g.rkStats)));
  }

  /**
   * The report read against the operator's rows: its call counts, its order
   * breakdown adding up to the order total, and its city and campaign counts
   * adding up to the answered calls of the period.
   */
  lemma OperatorReportCounts(op: CentreOperator, now: Instant, q: StatsQuery, calls: seq<Call>, orders: seq<Order>,
                             g: OperatorGroups)
    requires OperatorGroupings(now, q, op.id, calls, orders, g)
    ensures var r := OperatorReportOf(op, now, q, calls, orders, g);
            var w := PeriodOf(now, q);
            && r.calls.accepted == CountIf(calls, AnsweredIn(w, op.id))
            && r.calls.total <= CountIf(calls, CallIn(w, op.id))
            && 0 <= r.calls.acceptanceRate <= 100
            && SumValues(r.orders.byStatus, IntValue) == r.orders.total
            && Sum(r.cityStats, NamedCalls) == r.calls.accepted
            && Sum(r.rkStats, NamedCalls) == r.calls.accepted
  {
    var w := PeriodOf(now, q);
    CallSummaryCounts(g.callsStats, calls, w, op.id);
    ByStatusTotal(orders, w, op.id, g.ordersByStatus);
    NamedCountsTotal(calls, AnsweredIn(w, op.id), CallCity, g.cityStats);
    NamedCountsTotal(calls, AnsweredIn(w, op.id), CallRk, g.rkStats);
  }

  // ---------------------------------------------------------- overall report

  function PeriodCallIn(w: Window): Call -> bool
  {
    (c: Call) => InWindow(w, c.dateCreate)
  }

  function PeriodCallStatus(w: Window, p: string -> bool): Call -> bool
  {
    (c: Call) => InWindow(w, c.dateCreate) && p(c.status)
  }

  function PeriodOrderIn(w: Window): Order -> bool
  {
    (o: Order) => InWindow(w, o.createDate)
  }

  datatype OverallCalls = OverallCalls(total: int, accepted: int, missed: int, acceptanceRate: int)

  /** A group of `groupBy({ by: ['operatorId'] })`. */
  datatype OperatorGroup = OperatorGroup(operatorId: int, count: int)

  function GroupOperator(g: OperatorGroup): int { g.operatorId }
  function OperatorId(op: CentreOperator): int { op.id }
  function OperatorName(op: CentreOperator): string { op.name }

  /** `findMany({ where: { id: { in: operatorIds } } })` */
  function Listed(ids: seq<int>): CentreOperator -> bool
  {
    (op: CentreOperator) => op.id in ids
  }

  /** The record `{ [id]: name }` that the `reduce` over the fetched operators fills. */
  function OperatorMapOf(roster: seq<CentreOperator>, operatorStats: seq<OperatorGroup>): seq<Entry<int, string>>
  {
    FlatOf(Filter(roster, Listed(MapSeq(operatorStats, GroupOperator))), OperatorId, OperatorName)
  }

  /** `{ operatorName: operatorMap[stat.operatorId] || 'Не указан', calls: stat._count?.id || 0 }` */
  function OperatorCounts(operatorMap: seq<Entry<int, string>>, operatorStats: seq<OperatorGroup>): seq<NamedCount>
  {
    MapSeq(operatorStats, (g: OperatorGroup) => NamedCount(NameOr(Get(operatorMap, g.operatorId)), g.count))
  }

  datatype OverallReport = OverallReport(
    period: Window,
    calls: OverallCalls,
    orders: int,
    operatorStats: seq<NamedCount>,
    cityStats: seq<NamedCount>,
    rkStats: seq<NamedCount>)

  function OverallCallsOf(calls: seq<Call>, w: Window): OverallCalls
  {
    var total := CountIf(calls, PeriodCallIn(w));
    var accepted := CountIf(calls, PeriodCallStatus(w, IsAnswered()));
    var missed := CountIf(calls, PeriodCallStatus(w, IsMissed()));
    OverallCalls(total, accepted, missed, RoundedRate(accepted, total))
  }

  function OverallOf(now: Instant, q: StatsQuery, calls: seq<Call>, orders: seq<Order>, roster: seq<CentreOperator>,
                     operatorStats: seq<OperatorGroup>, cityStats: seq<KeyGroup>, rkStats: seq<KeyGroup>): OverallReport
  {
    var w := PeriodOf(now, q);
    OverallReport(w, OverallCallsOf(calls, w), CountIf(orders, PeriodOrderIn(w)),
                  OperatorCounts(OperatorMapOf(roster, operatorStats), operatorStats),
                  NamedCounts(cityStats), NamedCounts(rkStats))
  }

  /** `getOverallStats` */
  method GetOverallStats(now: Instant, q: StatsQuery, calls: seq<Call>, orders: seq<Order>, roster: seq<CentreOperator>,
                         operatorStats: seq<OperatorGroup>, cityStats: seq<KeyGroup>, rkStats: seq<KeyGroup>)
    returns (r: OverallReport)
    ensures r == OverallOf(now, q, calls, orders, roster, operatorStats, cityStats, rkStats)
  {
    var w := PeriodOf(now, q);
    var operatorIds := MapSeq(operatorStats, GroupOperator);
    var operators := Filter(roster, Listed(operatorIds));
    var operatorMap := FillFlat(operators, OperatorId, OperatorName);
    r := OverallReport(w, OverallCallsOf(calls, w), CountIf(orders, PeriodOrderIn(w)),
                       OperatorCounts(operatorMap, operatorStats), NamedCounts(cityStats), NamedCounts(rkStats));
  }

  /**
   * Here the total counts every call of the period, so accepted and missed
   * calls together are at most the total, and the rate is a percentage.
   */
  lemma OverallCallsBounds(calls: seq<Call>, w: Window)
    ensures var s := OverallCallsOf(calls, w);
            && s.accepted + s.missed <= s.total
            && 0 <= s.acceptanceRate <= 100
  {
    assert Answered !in MissedStatuses by {
      assert Answered[0] != Missed[0] && Answered[0] != NoAnswer[0] && Answered[0] != Busy[0];
    }
    CountIfDisjoint(calls, PeriodCallStatus(w, IsAnswered()), PeriodCallStatus(w, IsMissed()), PeriodCallIn(w));
  }

  /**
   * An operator's element carries the operator's name when the roster has
   * the operator (and the name is not empty), and the placeholder when it
   * does not.
   */
  lemma OperatorCountsNames(roster: seq<CentreOperator>, operatorStats: seq<OperatorGroup>, i: nat)
    requires forall a, b :: a in roster && b in roster && a.id == b.id ==> a.name == b.name
    requires i < |operatorStats|
    ensures var r := OperatorCounts(OperatorMapOf(roster, operatorStats), operatorStats);
            && |r| == |operatorStats|
            && r[i].calls == operatorStats[i].count
            && (forall op :: op in roster && op.id == operatorStats[i].operatorId ==> r[i].name == NameOr(Some(op.name)))
            && ((forall op :: op in roster ==> op.id != operatorStats[i].operatorId) ==> r[i].name == Unspecified)
  {
    var ids := MapSeq(operatorStats, GroupOperator);
    var operators := Filter(roster, Listed(ids));
    var id := operatorStats[i].operatorId;
    assert ids[i] == id;
    forall op | op in roster && op.id == id
      ensures Get(OperatorMapOf(roster, operatorStats), id) == Some(op.name)
    {
      assert op in operators;
      FlatGetConsistent(operators, OperatorId, OperatorName, op);
    }
    if forall op :: op in roster ==> op.id != id {
      FlatAbsent(operators, OperatorId, OperatorName, id);
    }
  }

  // ------------------------------------------------------------- dashboard

  datatype Employees = Employees(callCenter: int, directors: int, masters: int)
  datatype Finance = Finance(revenue: int, profit: int, expenses: int)
  datatype Dashboard = Dashboard(employees: Employees, orders: int, finance: Finance)

  function IsActive(op: CentreOperator): bool { op.status == Active }
  function IsWorking(m: MasterRow): bool { m.statusWork == Working }

  function CreatedIn(w: Window): Order -> bool
  {
    (o: Order) => InWindow(w, o.createDate)
  }

  /** `statusOrder: 'Готово', clean: { not: null }, closingData` in the window. */
  function RevenueIn(w: Window): Order -> bool
  {
    (o: Order) => o.statusOrder == Done && o.clean.Some? && o.closingData.Some? && InWindow(w, o.closingData.value)
  }

  function CleanOf(o: Order): int { OrZero(o.clean) }

  /** Cash entries of the given name whose `date` is in the window. */
  function CashIn(w: Window, name: string): CashEntry -> bool
  {
    (e: CashEntry) => e.name == name && InWindow(w, e.date)
  }

  function AmountOf(e: CashEntry): int { e.amount }

  /**
   * `getDashboardStats` for a clock that reads month `m` of year `y` in a
   * zone `offset` ms ahead of UTC; `directors` is the number of directors.
   */
  function DashboardOf(y: int, m: int, offset: int, operators: seq<CentreOperator>, directors: nat, masters: seq<MasterRow>,
                       orders: seq<Order>, cash: seq<CashEntry>): (r: Dashboard)
    ensures r.employees == Employees(CountIf(operators, IsActive), directors, CountIf(masters, IsWorking))
    ensures r.employees.callCenter <= |operators| && r.employees.masters <= |masters|
    ensures var w := MonthWindow(y, m, offset);
            && r.orders == CountIf(orders, CreatedIn(w)) <= |orders|
            && r.finance.revenue == SumIf(orders, RevenueIn(w), CleanOf)
            && r.finance.profit == SumIf(cash, CashIn(w, Income), AmountOf)
            && r.finance.expenses == SumIf(cash, CashIn(w, Expense), AmountOf)
  {
    var w := MonthWindow(y, m, offset);
    RoundOfInt(SumIf(orders, RevenueIn(w), CleanOf));
    RoundOfInt(SumIf(cash, CashIn(w, Income), AmountOf));
    RoundOfInt(SumIf(cash, CashIn(w, Expense), AmountOf));
    Dashboard(
      Employees(CountIf(operators, IsActive), directors, CountIf(masters, IsWorking)),
      CountIf(orders, CreatedIn(w)),
      Finance(Round(SumIf(orders, RevenueIn(w), CleanOf) as real),
              Round(SumIf(cash, CashIn(w, Income), AmountOf) as real),
              Round(SumIf(cash, CashIn(w, Expense), AmountOf) as real)))
  }

  /** An instant whose local day is one of the days of month `m` of year `y`. */
  predicate OnMonthDay(y: int, m: int, offset: int, t: Instant)
    requires 0 <= m < 12
  {
    MakeDay(y, m, 1) <= (t + offset) / MsPerDay < MakeDay(y, m, 1) + DaysInMonth(y, m)
  }

  function CreatedOnMonthDay(y: int, m: int, offset: int): Order -> bool
    requires 0 <= m < 12
  {
    (o: Order) => OnMonthDay(y, m, offset, o.createDate)
  }

  function DoneOnMonthDay(y: int, m: int, offset: int): Order -> bool
    requires 0 <= m < 12
  {
    (o: Order) => o.statusOrder == Done && o.clean.Some? && o.closingData.Some? && OnMonthDay(y, m, offset, o.closingData.value)
  }

  function CashOnMonthDay(y: int, m: int, offset: int, name: string): CashEntry -> bool
    requires 0 <= m < 12
  {
    (e: CashEntry) => e.name == name && OnMonthDay(y, m, offset, e.date)
  }

  /**
   * The dashboard counts the orders created on the local days of the current
   * month, and sums as revenue the `clean` of the done orders closed on those
   * days and as profit and expenses the income and expense entries dated on
   * them; rounding leaves these integer sums unchanged.
   */
  lemma DashboardMonth(y: int, m: int, offset: int, operators: seq<CentreOperator>, directors: nat, masters: seq<MasterRow>,
                       orders: seq<Order>, cash: seq<CashEntry>)
    requires 0 <= m < 12
    ensures var d := DashboardOf(y, m, offset, operators, directors, masters, orders, cash);
            && d.orders == CountIf(orders, CreatedOnMonthDay(y, m, offset))
            && d.finance.revenue == SumIf(orders, DoneOnMonthDay(y, m, offset), CleanOf)
            && d.finance.profit == SumIf(cash, CashOnMonthDay(y, m, offset, Income), AmountOf)
            && d.finance.expenses == SumIf(cash, CashOnMonthDay(y, m, offset, Expense), AmountOf)
  {
    var w := MonthWindow(y, m, offset);
    forall t: Instant
      ensures InWindow(w, t) <==> OnMonthDay(y, m, offset, t)
    {
      MonthWindowDays(y, m, offset, t);
    }
    CountIfExt(orders, CreatedIn(w), CreatedOnMonthDay(y, m, offset));
    SumIfExt(orders, RevenueIn(w), DoneOnMonthDay(y, m, offset), CleanOf, CleanOf);
    SumIfExt(cash, CashIn(w, Income), CashOnMonthDay(y, m, offset, Income), AmountOf, AmountOf);
    SumIfExt(cash, CashIn(w, Expense), CashOnMonthDay(y, m, offset, Expense), AmountOf, AmountOf);
    RoundOfInt(SumIf(orders, RevenueIn(w), CleanOf));
    RoundOfInt(SumIf(cash, CashIn(w, Income), AmountOf));
    RoundOfInt(SumIf(cash, CashIn(w, Expense), AmountOf));
  }
}
