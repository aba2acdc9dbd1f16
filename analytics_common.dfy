/**
 * The two analytics reports that read the same in the legacy and the grouped
 * analytics services: the daily metrics and the dashboard, together with the
 * date windows both services put on their queries.
 *
 * Daily metrics bucket the selected orders by the UTC day of their creation
 * in a `Map` keyed by the day, count every order and the 'Закрыт' ones of the
 * day, add up the revenue of the 'Закрыт' ones, and list the buckets by day.
 * The day key `toISOString().split('T')[0]` is modelled as the day number
 * since the epoch: the ISO date strings compare as those numbers do.
 */
module AnalyticsCommon {
  import opened Wrappers
  import opened Records
  import opened Folds
  import opened Numeric
  import opened JsMap
  import opened QueryFilter
  import opened Sorting
  import opened ReportsService

  /** The query of the analytics services: optional start and end instants. */
  datatype AnalyticsQuery = AnalyticsQuery(startDate: Option<Instant>, endDate: Option<Instant>)

  /** Calls whose `dateCreate` is inside the query's dates. */
  predicate CallInWindow(q: AnalyticsQuery, c: Call)
  {
    WithinDates(q.startDate, q.endDate, Some(c.dateCreate))
  }

  /** Orders whose `createDate` is inside the query's dates. */
  predicate OrderInWindow(q: AnalyticsQuery, o: Order)
  {
    WithinDates(q.startDate, q.endDate, Some(o.createDate))
  }

  /** `{ dateCreate: { gte?, lte? } }` and `{ createDate: { gte?, lte? } }` for a query. */
  method BuildWindowWheres(q: AnalyticsQuery) returns (callWhere: CallWhere, orderWhere: OrderWhere)
    ensures forall c :: CallMatches(callWhere, c) <==> CallInWindow(q, c)
    ensures forall o :: OrderMatches(orderWhere, o) <==> OrderInWindow(q, o)
    ensures callWhere == AllCalls.(dateCreate := callWhere.dateCreate)
    ensures orderWhere == AllOrders.(createDate := orderWhere.createDate)
  {
    var created := BuildDateBounds(q.startDate, q.endDate);
    callWhere := AllCalls.(dateCreate := created);
    orderWhere := AllOrders.(createDate := created);
  }

  // ---------------------------------------------------------- daily metrics

  /** The UTC day of an instant, as days since the epoch. */
  function DayOf(t: Instant): int
  {
    t / MsPerDay
  }

  /**
   * The daily query: `startDate` or else the first of the current month
   * (local midnight, given as `monthStart`), `endDate` or else `now`, and a
   * city when one is given.
   */
  datatype DailyQuery = DailyQuery(startDate: Option<Instant>, endDate: Option<Instant>, city: Option<string>)

  predicate DailySelects(now: Instant, monthStart: Instant, q: DailyQuery, o: Order)
  {
    q.startDate.GetOr(monthStart) <= o.createDate <= q.endDate.GetOr(now)
    && (q.city.None? || o.city == q.city.value)
  }

  function DailySelected(now: Instant, monthStart: Instant, q: DailyQuery): Order -> bool
  {
    o => DailySelects(now, monthStart, q, o)
  }

  method BuildDailyWhere(now: Instant, monthStart: Instant, q: DailyQuery) returns (w: OrderWhere)
    ensures forall o :: OrderMatches(w, o) <==> DailySelects(now, monthStart, q, o)
  {
    var start := if q.startDate.Some? then q.startDate.value else monthStart;
    var end := if q.endDate.Some? then q.endDate.value else now;
    w := AllOrders.(createDate := Some(DateBounds(Some(start), Some(end))));
    if q.city.Some? {
      w := w.(city := TextIs(q.city.value));
    }
  }

  datatype DayBucket = DayBucket(date: int, totalOrders: nat, completedOrders: nat, totalRevenue: int)

  function DayTotal(b: DayBucket): int { b.totalOrders }

  /** Sorting on the negated day lists the buckets earliest day first. */
  function NegDate(b: DayBucket): int { -b.date }

  function OnDay(d: int): Order -> bool
  {
    (o: Order) => DayOf(o.createDate) == d
  }

  function ClosedOnDay(d: int): Order -> bool
  {
    (o: Order) => DayOf(o.createDate) == d && o.statusOrder == Closed
  }

  /** What the bucket of day `d` should hold for the orders `os`. */
  function BucketFor(os: seq<Order>, d: int): DayBucket
  {
    DayBucket(d, CountIf(os, OnDay(d)), CountIf(os, ClosedOnDay(d)), SumIf(os, ClosedOnDay(d), ResultOrZero))
  }

  /** A day's completed orders are among its orders. */
  lemma CompletedWithinDay(os: seq<Order>, d: int)
    ensures BucketFor(os, d).completedOrders <= BucketFor(os, d).totalOrders
  {
    CountIfMonotone(os, ClosedOnDay(d), OnDay(d));
  }

  /** The days of the orders, in order. */
  function DaysOf(os: seq<Order>): (ds: seq<int>)
    ensures |ds| == |os|
  {
    if os == [] then [] else DaysOf(os[..|os| - 1]) + [DayOf(os[|os| - 1].createDate)]
  }

  lemma {:induction false} DaysOfMember(os: seq<Order>, i: nat)
    requires i < |os|
    ensures DayOf(os[i].createDate) in DaysOf(os)
  {
    var init := os[..|os| - 1];
    if i < |init| {
      assert os[i] == init[i];
      DaysOfMember(init, i);
    }
  }

  /** Every day on the list of days is the day of some order. */
  lemma {:induction false} DaysOfWitness(os: seq<Order>, d: int)
    requires d in DaysOf(os)
    ensures exists o :: o in os && DayOf(o.createDate) == d
  {
    var init, o := os[..|os| - 1], os[|os| - 1];
    assert os == init + [o];
    if d != DayOf(o.createDate) {
      DaysOfWitness(init, d);
      var o' :| o' in init && DayOf(o'.createDate) == d;
      assert o' in os;
    }
  }

  lemma {:induction false} NoOrdersOnDay(os: seq<Order>, d: int)
    requires d !in DaysOf(os)
    ensures BucketFor(os, d) == DayBucket(d, 0, 0, 0)
  {
    if os != [] {
      var init, o := os[..|os| - 1], os[|os| - 1];
      assert os == init + [o];
      NoOrdersOnDay(init, d);
      CountIfAppend(init, [o], OnDay(d));
      CountIfAppend(init, [o], ClosedOnDay(d));
      SumIfAppend(init, [o], ClosedOnDay(d), ResultOrZero);
    }
  }

  /** The bucket of each day after one more order. */
  lemma BucketForNext(os: seq<Order>, o: Order, d: int)
    ensures BucketFor(os + [o], d)
         == if DayOf(o.createDate) != d then BucketFor(os, d)
            else
              var b := BucketFor(os, d);
              if o.statusOrder == Closed
              then DayBucket(d, b.totalOrders + 1, b.completedOrders + 1, b.totalRevenue + OrZero(o.result))
              else DayBucket(d, b.totalOrders + 1, b.completedOrders, b.totalRevenue)
  {
    CountIfAppend(os, [o], OnDay(d));
    CountIfAppend(os, [o], ClosedOnDay(d));
    SumIfAppend(os, [o], ClosedOnDay(d), ResultOrZero);
  }

  /** `m` is the day map of the orders `os`. */
  ghost predicate DailyOf(m: seq<Entry<int, DayBucket>>, os: seq<Order>)
  {
    Keys(m) == Dedup(DaysOf(os))
    && UniqueKeys(m)
    && (forall k {:trigger Get(m, k)} :: k in Keys(m) ==> Get(m, k) == Some(BucketFor(os, k)))
    && SumValues(m, DayTotal) == |os|
  }

  /** The day map of `os` once the bucket of day `d` exists. */
  ghost predicate DayOpened(m: seq<Entry<int, DayBucket>>, os: seq<Order>, d: int)
  {
    Keys(m) == Dedup(DaysOf(os) + [d])
    && d in Keys(m)
    && UniqueKeys(m)
    && (forall k {:trigger Get(m, k)} :: k in Keys(m) ==> Get(m, k) == Some(BucketFor(os, k)))
    && SumValues(m, DayTotal) == |os|
  }

  /** Counting one order in its day's bucket. */
  function Count(day: DayBucket, o: Order): DayBucket
  {
    var counted := day.(totalOrders := day.totalOrders + 1);
    if o.statusOrder == Closed
    then counted.(completedOrders := counted.completedOrders + 1, totalRevenue := counted.totalRevenue + OrZero(o.result))
    else counted
  }

  /** One step of the `forEach`: open the day's bucket when it is new, count the order in it. */
  function AddOrder(m: seq<Entry<int, DayBucket>>, o: Order): seq<Entry<int, DayBucket>>
  {
    var key := DayOf(o.createDate);
    var m1 := if key !in Keys(m) then Set(m, key, DayBucket(key, 0, 0, 0)) else m;
    SetKeysMember(m, key, DayBucket(key, 0, 0, 0), key);
    Set(m1, key, Count(Get(m1, key).value, o))
  }

  lemma OpenExistingDay(m: seq<Entry<int, DayBucket>>, os: seq<Order>, d: int)
    requires DailyOf(m, os) && d in Keys(m)
    ensures DayOpened(m, os, d)
  {
    DedupStep(DaysOf(os), d);
  }

  lemma OpenNewDay(m: seq<Entry<int, DayBucket>>, os: seq<Order>, d: int)
    requires DailyOf(m, os) && d !in Keys(m)
    ensures DayOpened(Set(m, d, DayBucket(d, 0, 0, 0)), os, d)
  {
    var empty := DayBucket(d, 0, 0, 0);
    var m1 := Set(m, d, empty);
    SetKeys(m, d, empty);
    SetGet(m, d, empty);
    DedupStep(DaysOf(os), d);
    DedupMember(DaysOf(os), d);
    NoOrdersOnDay(os, d);
    SetNewKeySum(m, d, empty, DayTotal);
    forall k | k in Keys(m1)
      ensures Get(m1, k) == Some(BucketFor(os, k))
    {
      if k != d {
        SetKeysMember(m, d, empty, k);
        SetGetOther(m, d, empty, k);
      }
    }
    UniqueFromDedup(m1, DaysOf(os) + [d]);
  }

  lemma CountOrder(m: seq<Entry<int, DayBucket>>, os: seq<Order>, o: Order)
    requires DayOpened(m, os, DayOf(o.createDate))
    ensures DailyOf(Set(m, DayOf(o.createDate), Count(Get(m, DayOf(o.createDate)).value, o)), os + [o])
  {
    var d := DayOf(o.createDate);
    var v := Count(Get(m, d).value, o);
    SetKeys(m, d, v);
    assert (os + [o])[..|os|] == os;
    assert DaysOf(os + [o]) == DaysOf(os) + [d];
    SetExistingSum(m, d, v, DayTotal);
    CountOrderBuckets(m, os, o);
    SetKeepsDistinct(m, d, v);
  }

  /** After counting `o`, every day's bucket is that day's bucket of `os + [o]`. */
  lemma CountOrderBuckets(m: seq<Entry<int, DayBucket>>, os: seq<Order>, o: Order)
    requires DayOpened(m, os, DayOf(o.createDate))
    ensures var m2 := Set(m, DayOf(o.createDate), Count(Get(m, DayOf(o.createDate)).value, o));
            forall k {:trigger Get(m2, k)} :: k in Keys(m2) ==> Get(m2, k) == Some(BucketFor(os + [o], k))
  {
    var d := DayOf(o.createDate);
    var v := Count(Get(m, d).value, o);
    var m2 := Set(m, d, v);
    SetKeys(m, d, v);
    SetGet(m, d, v);
    forall k | k in Keys(m2)
      ensures Get(m2, k) == Some(BucketFor(os + [o], k))
    {
      BucketForNext(os, o, k);
      if k != d {
        SetKeysMember(m, d, v, k);
        assert Get(m, k) == Some(BucketFor(os, k));
        SetGetOther(m, d, v, k);
      } else {
        assert Get(m, k) == Some(BucketFor(os, k));
      }
    }
  }

  lemma AddOrderStep(m: seq<Entry<int, DayBucket>>, os: seq<Order>, i: nat)
    requires i < |os| && DailyOf(m, os[..i])
    ensures DailyOf(AddOrder(m, os[i]), os[..i + 1])
  {
    var o := os[i];
    var d := DayOf(o.createDate);
    assert os[..i + 1] == os[..i] + [o];
    if d !in Keys(m) {
      OpenNewDay(m, os[..i], d);
      CountOrder(Set(m, d, DayBucket(d, 0, 0, 0)), os[..i], o);
    } else {
      OpenExistingDay(m, os[..i], d);
      CountOrder(m, os[..i], o);
    }
  }

  /**
   * The body of the `forEach` filling `dailyMap`: a new day gets a zeroed
   * bucket; then the day's `totalOrders` goes up by one and, for a 'Закрыт'
   * order, so does `completedOrders` while `totalRevenue` grows by its result
   * (null as 0).
   */
  method CountInto(m0: seq<Entry<int, DayBucket>>, o: Order) returns (m: seq<Entry<int, DayBucket>>)
    ensures m == AddOrder(m0, o)
  {
    m := m0;
    var key := DayOf(o.createDate);
    SetKeysMember(m, key, DayBucket(key, 0, 0, 0), key);
    if key !in Keys(m) {
      m := Set(m, key, DayBucket(key, 0, 0, 0));
    }
    var day := Get(m, key).value;
    ghost var found := day;
    day := day.(totalOrders := day.totalOrders + 1);
    if o.statusOrder == Closed {
      day := day.(completedOrders := day.completedOrders + 1, totalRevenue := day.totalRevenue + OrZero(o.result));
    }
    assert day == Count(found, o);
    m := Set(m, key, day);
  }

  /** The `forEach` over the selected orders: each day's bucket holds that day's numbers. */
  method BuildDailyMap(os: seq<Order>) returns (m: seq<Entry<int, DayBucket>>)
    ensures Keys(m) == Dedup(DaysOf(os))
    ensures UniqueKeys(m)
    ensures forall k {:trigger Get(m, k)} :: k in Keys(m) ==> Get(m, k) == Some(BucketFor(os, k))
    ensures SumValues(m, DayTotal) == |os|
  {
    m := [];
    var i := 0;
    while i < |os|
      invariant 0 <= i <= |os|
      invariant DailyOf(m, os[..i])
    {
      AddOrderStep(m, os, i);
      m := CountInto(m, os[i]);
      i := i + 1;
    }
    assert os[..i] == os;
  }

  /** The buckets of a day map each hold their own day's numbers. */
  lemma DailyValues(m: seq<Entry<int, DayBucket>>, os: seq<Order>, j: nat)
    requires UniqueKeys(m) && j < |m|
    requires forall k {:trigger Get(m, k)} :: k in Keys(m) ==> Get(m, k) == Some(BucketFor(os, k))
    ensures Values(m)[j] == BucketFor(os, m[j].key)
  {
    GetAt(m, j);
    KeysAt(m, j);
  }

  /**
   * `getDailyMetrics`: one bucket per day on which a selected order was
   * created, each holding that day's counts and 'Закрыт' revenue, listed
   * strictly by day; the buckets' order counts add up to the selected count.
   */
  method GetDailyMetrics(now: Instant, monthStart: Instant, q: DailyQuery, orders: seq<Order>) returns (data: seq<DayBucket>)
    ensures forall i :: 0 <= i < |data| ==>
              data[i] == BucketFor(Filter(orders, DailySelected(now, monthStart, q)), data[i].date)
              && data[i].completedOrders <= data[i].totalOrders
    ensures forall o :: o in orders && DailySelects(now, monthStart, q, o) ==>
              exists i :: 0 <= i < |data| && data[i].date == DayOf(o.createDate)
    ensures forall i :: 0 <= i < |data| ==>
              exists o :: o in orders && DailySelects(now, monthStart, q, o) && DayOf(o.createDate) == data[i].date
    ensures forall i :: 0 <= i < |data| ==> data[i].totalOrders > 0
    ensures forall i, j :: 0 <= i < j < |data| ==> data[i].date < data[j].date
    ensures Sum(data, DayTotal) == CountIf(orders, DailySelected(now, monthStart, q))
  {
    var w := BuildDailyWhere(now, monthStart, q);
    FilterExt(orders, MatchOrder(w), DailySelected(now, monthStart, q));
    var rows := Filter(orders, MatchOrder(w));
    var dailyMap := BuildDailyMap(rows);
    data := SortDesc(Values(dailyMap), NegDate);
    DailyListed(dailyMap, rows, data);
    DailyCovers(dailyMap, rows, data);
    DailyOccurs(dailyMap, rows, data);
    DailyStrict(dailyMap, rows, data);
    DailySum(dailyMap, rows, data);
    FilterLength(orders, MatchOrder(w));
    CountIfExt(orders, MatchOrder(w), DailySelected(now, monthStart, q));
  }

  /** Every listed bucket is its own day's bucket. */
  lemma DailyListed(m: seq<Entry<int, DayBucket>>, os: seq<Order>, data: seq<DayBucket>)
    requires DailyOf(m, os) && multiset(data) == multiset(Values(m))
    ensures forall i :: 0 <= i < |data| ==> data[i] == BucketFor(os, data[i].date) && data[i].completedOrders <= data[i].totalOrders
  {
    var values := Values(m);
    forall i | 0 <= i < |data|
      ensures data[i] == BucketFor(os, data[i].date) && data[i].completedOrders <= data[i].totalOrders
    {
      assert data[i] in multiset(values);
      var j :| 0 <= j < |values| && values[j] == data[i];
      DailyValues(m, os, j);
      CompletedWithinDay(os, data[i].date);
    }
  }

  /** Every day of an order has its bucket on the list. */
  lemma DailyCovers(m: seq<Entry<int, DayBucket>>, os: seq<Order>, data: seq<DayBucket>)
    requires DailyOf(m, os) && multiset(data) == multiset(Values(m))
    ensures forall o :: o in os ==> exists i :: 0 <= i < |data| && data[i].date == DayOf(o.createDate)
  {
    var values := Values(m);
    forall o | o in os
      ensures exists i :: 0 <= i < |data| && data[i].date == DayOf(o.createDate)
    {
      var k :| 0 <= k < |os| && os[k] == o;
      DaysOfMember(os, k);
      DedupMember(DaysOf(os), DayOf(o.createDate));
      var j :| 0 <= j < |m| && Keys(m)[j] == DayOf(o.createDate);
      KeysAt(m, j);
      DailyValues(m, os, j);
      assert values[j] in multiset(data);
      var i :| 0 <= i < |data| && data[i] == values[j];
    }
  }

  /** Every listed bucket is the day of some order, and so counts at least one order. */
  lemma DailyOccurs(m: seq<Entry<int, DayBucket>>, os: seq<Order>, data: seq<DayBucket>)
    requires DailyOf(m, os) && multiset(data) == multiset(Values(m))
    ensures forall i :: 0 <= i < |data| ==> exists o :: o in os && DayOf(o.createDate) == data[i].date
    ensures forall i :: 0 <= i < |data| ==> data[i].totalOrders > 0
  {
    var values := Values(m);
    forall i | 0 <= i < |data|
      ensures (exists o :: o in os && DayOf(o.createDate) == data[i].date) && data[i].totalOrders > 0
    {
      assert data[i] in multiset(values);
      var j :| 0 <= j < |values| && values[j] == data[i];
      DailyValues(m, os, j);
      KeysAt(m, j);
      var d := m[j].key;
      assert d in Keys(m);
      DedupMember(DaysOf(os), d);
      DaysOfWitness(os, d);
      var o :| o in os && DayOf(o.createDate) == d;
      CountIfWitness(os, OnDay(d), o);
    }
  }

  /** A day map lists each day once, so the buckets sorted by day are strictly ascending. */
  lemma DailyStrict(m: seq<Entry<int, DayBucket>>, os: seq<Order>, data: seq<DayBucket>)
    requires DailyOf(m, os) && multiset(data) == multiset(Values(m)) && SortedDesc(data, NegDate)
    ensures forall i, j :: 0 <= i < j < |data| ==> data[i].date < data[j].date
  {
    var values := Values(m);
    forall i, j | 0 <= i < j < |values|
      ensures values[i] != values[j]
    {
      DailyValues(m, os, i);
      DailyValues(m, os, j);
    }
    DistinctPermutation(data, values);
    DailyListed(m, os, data);
    forall i, j | 0 <= i < j < |data|
      ensures data[i].date < data[j].date
    {
      assert NegDate(data[i]) >= NegDate(data[j]);
    }
  }

  lemma DailySum(m: seq<Entry<int, DayBucket>>, os: seq<Order>, data: seq<DayBucket>)
    requires DailyOf(m, os) && multiset(data) == multiset(Values(m))
    ensures Sum(data, DayTotal) == |os|
  {
    SumIfPermutation(data, Values(m), All(), DayTotal);
    SumIfAll(data, All(), DayTotal);
    SumIfAll(Values(m), All(), DayTotal);
    SumOfValues(m, DayTotal);
  }

  // -------------------------------------------------------------- dashboard

  datatype Period = Today | Week | Month

  /**
   * The start of the dashboard period: local midnight today, seven days
   * before `now`, or local midnight on the first of the month. The two local
   * midnights come from the clock and are given.
   */
  function PeriodStart(period: Period, now: Instant, todayStart: Instant, monthStart: Instant): (s: Instant)
    ensures period == Week ==> now - s == 7 * MsPerDay
    ensures period == Today ==> s == todayStart
    ensures period == Month ==> s == monthStart
  {
    match period
    case Today => todayStart
    case Week => now - 7 * 24 * 60 * 60 * 1000
    case Month => monthStart
  }

  datatype DashboardOrders = DashboardOrders(total: nat, completed: nat, inProgress: nat, completionRate: real)
  datatype DashboardRevenue = DashboardRevenue(total: int, avg: int)
  datatype DashboardCalls = DashboardCalls(total: nat, answered: nat, avgDuration: int, answerRate: real)
  datatype DashboardPerformance = DashboardPerformance(conversionRate: real, activeOperators: nat)
  datatype Dashboard = Dashboard(period: Period, orders: DashboardOrders, revenue: DashboardRevenue,
                                 calls: DashboardCalls, performance: DashboardPerformance)

  function OrderIn(start: Instant, now: Instant): Order -> bool
  {
    (o: Order) => start <= o.createDate <= now
  }

  function OrderInWith(start: Instant, now: Instant, status: string): Order -> bool
  {
    (o: Order) => start <= o.createDate <= now && o.statusOrder == status
  }

  function OrderInProgress(start: Instant, now: Instant): Order -> bool
  {
    (o: Order) => start <= o.createDate <= now && o.statusOrder in [InWork, MasterAssigned, MasterOnTheWay]
  }

  function OrderDoneOrInProgress(start: Instant, now: Instant): Order -> bool
  {
    (o: Order) => start <= o.createDate <= now && o.statusOrder in [Closed, InWork, MasterAssigned, MasterOnTheWay]
  }

  function OrderWithResult(start: Instant, now: Instant): Order -> bool
  {
    (o: Order) => start <= o.createDate <= now && o.result.Some?
  }

  function CallIn(start: Instant, now: Instant): Call -> bool
  {
    (c: Call) => start <= c.dateCreate <= now
  }

  function CallInWith(start: Instant, now: Instant, status: string): Call -> bool
  {
    (c: Call) => start <= c.dateCreate <= now && c.status == status
  }

  function TimedCallIn(start: Instant, now: Instant): Call -> bool
  {
    (c: Call) => start <= c.dateCreate <= now && c.duration.Some?
  }

  function OnShift(op: Operator): bool { op.statusWork == Working }

  /**
   * `getDashboardData`: counts and sums over the orders and calls created
   * between the period start and `now`; `_avg.duration || 0` is the mean of
   * the non-null durations, 0 without one; every ratio is guarded by its
   * denominator and rounded to two places.
   */
  function DashboardOf(period: Period, now: Instant, todayStart: Instant, monthStart: Instant,
                       orders: seq<Order>, calls: seq<Call>, operators: seq<Operator>): (d: Dashboard)
    ensures d.period == period
    ensures var s := PeriodStart(period, now, todayStart, monthStart);
            && d.orders.total == CountIf(orders, OrderIn(s, now))
            && d.orders.completed == CountIf(orders, OrderInWith(s, now, Closed))
            && d.orders.inProgress == CountIf(orders, OrderInProgress(s, now))
            && d.revenue.total == SumIf(orders, OrderWithResult(s, now), ResultOrZero)
    ensures var s := PeriodStart(period, now, todayStart, monthStart);
            && d.calls.total == CountIf(calls, CallIn(s, now))
            && d.calls.answered == CountIf(calls, CallInWith(s, now, Answered))
            && d.calls.avgDuration == RoundedMean(SumIf(calls, TimedCallIn(s, now), DurationOrZero),
                                                  CountIf(calls, TimedCallIn(s, now)))
    ensures d.performance.activeOperators == CountIf(operators, OnShift)
    ensures d.orders.completed + d.orders.inProgress <= d.orders.total
    ensures d.orders.completionRate == Round2(Percent(d.orders.completed, d.orders.total))
    ensures 0.0 <= d.orders.completionRate <= 100.0
    ensures d.orders.total == 0 ==> d.orders.completionRate == 0.0
    ensures d.revenue.avg == RoundedMean(d.revenue.total, d.orders.completed)
    ensures d.calls.answered <= d.calls.total
    ensures d.calls.answerRate == Round2(Percent(d.calls.answered, d.calls.total))
    ensures 0.0 <= d.calls.answerRate <= 100.0
    ensures d.calls.total == 0 ==> d.calls.answerRate == 0.0
    ensures d.performance.conversionRate == Round2(Percent(d.orders.total, d.calls.answered))
    ensures d.calls.answered == 0 ==> d.performance.conversionRate == 0.0
    ensures d.performance.activeOperators <= |operators|
  {
    var start := PeriodStart(period, now, todayStart, monthStart);
    var totalOrders := CountIf(orders, OrderIn(start, now));
    var completedOrders := CountIf(orders, OrderInWith(start, now, Closed));
    var inProgressOrders := CountIf(orders, OrderInProgress(start, now));
    var revenue := SumIf(orders, OrderWithResult(start, now), ResultOrZero);
    var totalCalls := CountIf(calls, CallIn(start, now));
    var answeredCalls := CountIf(calls, CallInWith(start, now, Answered));
    var avgDuration := RoundedMean(SumIf(calls, TimedCallIn(start, now), DurationOrZero), CountIf(calls, TimedCallIn(start, now)));
    var activeOperators := CountIf(operators, OnShift);
    DashboardBounds(start, now, orders, calls, operators);
    var completionRate := Percent(completedOrders, totalOrders);
    var answerRate := Percent(answeredCalls, totalCalls);
    Round2Percent(completionRate);
    Round2Percent(answerRate);
    Round2Zero();
    Dashboard(period,
      DashboardOrders(totalOrders, completedOrders, inProgressOrders, Round2(completionRate)),
      DashboardRevenue(revenue, RoundedMean(revenue, completedOrders)),
      DashboardCalls(totalCalls, answeredCalls, avgDuration, Round2(answerRate)),
      DashboardPerformance(Round2(Percent(totalOrders, answeredCalls)), activeOperators))
  }

  /** The completed and in-progress statuses are disjoint, and both are counted in the total. */
  lemma DashboardBounds(start: Instant, now: Instant, orders: seq<Order>, calls: seq<Call>, operators: seq<Operator>)
    ensures CountIf(orders, OrderInWith(start, now, Closed)) + CountIf(orders, OrderInProgress(start, now))
         <= CountIf(orders, OrderIn(start, now))
    ensures CountIf(calls, CallInWith(start, now, Answered)) <= CountIf(calls, CallIn(start, now))
    ensures CountIf(operators, OnShift) <= |operators|
  {
    assert Closed[0] != InWork[0] && Closed[0] != MasterAssigned[0] && Closed[0] != MasterOnTheWay[0];
    CountIfSplit(orders, OrderDoneOrInProgress(start, now), OrderInWith(start, now, Closed), OrderInProgress(start, now));
    CountIfMonotone(orders, OrderDoneOrInProgress(start, now), OrderIn(start, now));
    CountIfMonotone(calls, CallInWith(start, now, Answered), CallIn(start, now));
    CountIfMonotone(operators, OnShift, (op: Operator) => true);
    CountIfAll(operators, (op: Operator) => true);
  }
}
