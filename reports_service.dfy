/**
 * The list reports of the reports service: orders, finance, calls, the orders
 * of one city, and a master's own statistics.
 *
 * Each report builds a `where` object from its query and hands it to the
 * database. Here the rows are an input sequence, a `count` or `aggregate` is a
 * fold over the rows the `where` selects, and each report is stated against
 * what its query means.
 */
module ReportsService {
  import opened Wrappers
  import opened Records
  import opened Folds
  import opened Numeric
  import opened QueryFilter
  import opened Sorting

  /** The query parameters of the reports; a falsy parameter is absent. */
  datatype ReportsQuery = ReportsQuery(
    startDate: Option<Instant>,
    endDate: Option<Instant>,
    city: Option<string>,
    status: Option<string>,
    masterId: Option<int>,
    operatorId: Option<int>)

  function CreateDate(o: Order): int { o.createDate }
  function ResultOrZero(o: Order): int { OrZero(o.result) }

  // ---------------------------------------------------------------- orders

  /** The orders an orders-report query asks for. */
  predicate OrdersQuerySelects(q: ReportsQuery, o: Order)
  {
    WithinDates(q.startDate, q.endDate, Some(o.createDate))
    && (q.city.None? || o.city == q.city.value)
    && (q.status.None? || o.statusOrder == q.status.value)
    && (q.masterId.None? || o.masterId == q.masterId)
  }

  function SelectedOrders(q: ReportsQuery): Order -> bool
  {
    o => OrdersQuerySelects(q, o)
  }

  method BuildOrdersWhere(q: ReportsQuery) returns (w: OrderWhere)
    ensures forall o :: OrderMatches(w, o) <==> OrdersQuerySelects(q, o)
    ensures forall o, s :: OrderMatches(w.(statusOrder := TextIs(s)), o) <==> OrdersQuerySelects(q.(status := Some(s)), o)
  {
    var created := BuildDateBounds(q.startDate, q.endDate);
    w := AllOrders.(createDate := created);
    if q.city.Some? {
      w := w.(city := TextIs(q.city.value));
    }
    if q.status.Some? {
      w := w.(statusOrder := TextIs(q.status.value));
    }
    if q.masterId.Some? {
      w := w.(masterId := IdIs(q.masterId.value));
    }
  }

  datatype OrdersStats = OrdersStats(totalCount: nat, completedCount: nat, totalRevenue: int, avgRevenue: int)

  datatype OrdersReport = OrdersReport(orders: seq<Order>, stats: OrdersStats)

  /**
   * The newest 1000 selected orders, the selected count, the count of the
   * selected orders with their status replaced by 'Закрыт', and the revenue sum
   * with its average per completed order.
   */
  method GetOrdersReport(q: ReportsQuery, orders: seq<Order>) returns (r: OrdersReport)
    ensures |r.orders| == if CountIf(orders, SelectedOrders(q)) <= 1000 then CountIf(orders, SelectedOrders(q)) else 1000
    ensures forall o :: o in r.orders ==> o in orders && OrdersQuerySelects(q, o)
    ensures multiset(r.orders) <= multiset(Filter(orders, SelectedOrders(q)))
    ensures SortedDesc(r.orders, CreateDate)
    ensures forall o, k :: o in multiset(Filter(orders, SelectedOrders(q))) - multiset(r.orders) && 0 <= k < |r.orders| ==>
              o.createDate <= r.orders[k].createDate
    ensures r.stats.totalCount == CountIf(orders, SelectedOrders(q))
    ensures r.stats.completedCount == CountIf(orders, SelectedOrders(q.(status := Some(Closed))))
    ensures r.stats.totalRevenue == SumIf(orders, SelectedOrders(q), ResultOrZero)
    ensures r.stats.avgRevenue == RoundedMean(r.stats.totalRevenue, r.stats.completedCount)
  {
    var w := BuildOrdersWhere(q);
    var completedWhere := w.(statusOrder := TextIs(Closed));
    var matching := Filter(orders, MatchOrder(w));
    var sorted := SortDesc(matching, CreateDate);
    var list := Take(sorted, 1000);
    CountIfExt(orders, MatchOrder(w), SelectedOrders(q));
    CountIfExt(orders, MatchOrder(completedWhere), SelectedOrders(q.(status := Some(Closed))));
    SumIfExt(orders, MatchOrder(w), SelectedOrders(q), ResultOrZero, ResultOrZero);
    FilterLength(orders, MatchOrder(w));
    forall o | o in list
      ensures o in orders && OrdersQuerySelects(q, o)
    {
      assert o in multiset(sorted);
      assert o in matching;
    }
    KeptNewest(orders, MatchOrder(w), SelectedOrders(q), sorted, list);
    var totalCount := CountIf(orders, MatchOrder(w));
    var completedCount := CountIf(orders, MatchOrder(completedWhere));
    var revenueSum := SumIf(orders, MatchOrder(w), ResultOrZero);
    r := OrdersReport(list, OrdersStats(totalCount, completedCount, revenueSum, RoundedMean(revenueSum, completedCount)));
  }

  /**
   * The first orders of a newest-first sort of the matching orders are among
   * them, and every matching order left out is no newer than any kept one.
   */
  lemma KeptNewest(orders: seq<Order>, p: Order -> bool, p': Order -> bool, sorted: seq<Order>, list: seq<Order>)
    requires forall o :: p(o) == p'(o)
    requires multiset(sorted) == multiset(Filter(orders, p)) && SortedDesc(sorted, CreateDate)
    requires list == Take(sorted, 1000)
    ensures multiset(list) <= multiset(Filter(orders, p'))
    ensures forall o, k :: o in multiset(Filter(orders, p')) - multiset(list) && 0 <= k < |list| ==>
              o.createDate <= list[k].createDate
  {
    FilterExt(orders, p, p');
    TakeLeavesSmaller(sorted, 1000, CreateDate);
    forall o, k | o in multiset(Filter(orders, p')) - multiset(list) && 0 <= k < |list|
      ensures o.createDate <= list[k].createDate
    {
      assert CreateDate(o) <= CreateDate(list[k]);
    }
  }

  /** Without a status filter, or filtering on 'Закрыт', the completed orders are among the counted ones. */
  lemma {:induction false} CompletedWithinTotal(q: ReportsQuery, orders: seq<Order>)
    requires q.status.None? || q.status == Some(Closed)
    ensures CountIf(orders, SelectedOrders(q.(status := Some(Closed)))) <= CountIf(orders, SelectedOrders(q))
  {
    CountIfMonotone(orders, SelectedOrders(q.(status := Some(Closed))), SelectedOrders(q));
  }

  /**
   * The completed count replaces the status filter rather than narrowing it:
   * filtering on 'Готово' counts no order but one completed order.
   */
  lemma StatusFilterReplaced()
    ensures var q := ReportsQuery(None, None, None, Some(Done), None, None);
            var o := Order(1, None, None, "Москва", "avito", None, Closed, 0, None, None, None, None, None, None, None);
            CountIf([o], SelectedOrders(q)) == 0 && CountIf([o], SelectedOrders(q.(status := Some(Closed)))) == 1
  {
    var q := ReportsQuery(None, None, None, Some(Done), None, None);
    var o := Order(1, None, None, "Москва", "avito", None, Closed, 0, None, None, None, None, None, None, None);
    assert Closed != Done by {
      assert Closed[0] != Done[0];
    }
    assert !OrdersQuerySelects(q, o);
    assert OrdersQuerySelects(q.(status := Some(Closed)), o);
  }

  // --------------------------------------------------------------- finance

  function CreatedAt(t: CashEntry): int { t.createdAt }
  function Amount(t: CashEntry): int { t.amount }

  function NameIs(name: string): CashEntry -> bool
  {
    (t: CashEntry) => t.name == name
  }

  datatype ByName = ByName(income: int, expense: int)

  datatype FinanceReport = FinanceReport(total: int, byName: ByName, transactions: seq<CashEntry>)

  /** The `byName` accumulator: income and expense amounts summed, other names ignored. */
  method TallyByName(ts: seq<CashEntry>) returns (b: ByName)
    ensures b.income == SumIf(ts, NameIs(Income), Amount)
    ensures b.expense == SumIf(ts, NameIs(Expense), Amount)
  {
    b := ByName(0, 0);
    var i := 0;
    while i < |ts|
      invariant 0 <= i <= |ts|
      invariant b.income == SumIf(ts[..i], NameIs(Income), Amount)
      invariant b.expense == SumIf(ts[..i], NameIs(Expense), Amount)
    {
      var t := ts[i];
      assert ts[..i + 1] == ts[..i] + [t];
      SumIfAppend(ts[..i], [t], NameIs(Income), Amount);
      SumIfAppend(ts[..i], [t], NameIs(Expense), Amount);
      if t.name == Income {
        b := b.(income := b.income + t.amount);
      } else if t.name == Expense {
        b := b.(expense := b.expense + t.amount);
      }
      i := i + 1;
    }
    assert ts[..i] == ts;
  }

  /** The transactions a finance query asks for. */
  predicate FinanceQuerySelects(q: ReportsQuery, t: CashEntry)
  {
    WithinDates(q.startDate, q.endDate, Some(t.createdAt))
  }

  function SelectedCash(q: ReportsQuery): CashEntry -> bool
  {
    t => FinanceQuerySelects(q, t)
  }

  method BuildFinanceWhere(q: ReportsQuery) returns (w: CashWhere)
    ensures forall t :: CashMatches(w, t) <==> FinanceQuerySelects(q, t)
  {
    var created := BuildDateBounds(q.startDate, q.endDate);
    w := CashWhere(created, None, AnyText);
  }

  function All<T>(): T -> bool
  {
    x => true
  }

  /** The selected transactions newest first, their amount total, and income and expense among them. */
  method GetFinanceReport(q: ReportsQuery, cash: seq<CashEntry>) returns (r: FinanceReport)
    ensures multiset(r.transactions) == multiset(Filter(cash, SelectedCash(q)))
    ensures SortedDesc(r.transactions, CreatedAt)
    ensures r.total == SumIf(cash, SelectedCash(q), Amount)
    ensures r.byName.income == SumIf(r.transactions, NameIs(Income), Amount)
    ensures r.byName.expense == SumIf(r.transactions, NameIs(Expense), Amount)
  {
    var w := BuildFinanceWhere(q);
    var matching := Filter(cash, MatchCash(w));
    assert matching == Filter(cash, SelectedCash(q)) by {
      FilterExt(cash, MatchCash(w), SelectedCash(q));
    }
    var transactions := SortDesc(matching, CreatedAt);
    var byName := TallyByName(transactions);
    SumIfExt(cash, MatchCash(w), SelectedCash(q), Amount, Amount);
    r := FinanceReport(SumIf(cash, MatchCash(w), Amount), byName, transactions);
  }

  /**
   * The total is income plus expense plus the amounts under any other name:
   * `byName` splits the total only when every transaction is one or the other.
   */
  lemma FinanceTotalSplit(q: ReportsQuery, cash: seq<CashEntry>, r: FinanceReport)
    requires multiset(r.transactions) == multiset(Filter(cash, SelectedCash(q)))
    requires r.total == SumIf(cash, SelectedCash(q), Amount)
    requires r.byName.income == SumIf(r.transactions, NameIs(Income), Amount)
    requires r.byName.expense == SumIf(r.transactions, NameIs(Expense), Amount)
    ensures r.total == r.byName.income + r.byName.expense + SumIf(r.transactions, OtherName(), Amount)
  {
    var ts := r.transactions;
    FilterSumIf(cash, SelectedCash(q), Amount, All());
    SumIfPermutation(Filter(cash, SelectedCash(q)), ts, All(), Amount);
    assert r.total == SumIf(ts, All(), Amount);
    SumIfSplit(ts, All(), KnownName(), OtherName(), Amount);
    SumIfSplit(ts, KnownName(), NameIs(Income), NameIs(Expense), Amount);
  }

  function KnownName(): CashEntry -> bool
  {
    (t: CashEntry) => t.name == Income || t.name == Expense
  }

  function OtherName(): CashEntry -> bool
  {
    (t: CashEntry) => t.name != Income && t.name != Expense
  }

  // ----------------------------------------------------------------- calls

  /** The calls a calls-report query asks for. */
  predicate CallsQuerySelects(q: ReportsQuery, c: Call)
  {
    WithinDates(q.startDate, q.endDate, Some(c.dateCreate))
    && (q.operatorId.None? || c.operatorId == q.operatorId.value)
  }

  function SelectedCalls(q: ReportsQuery): Call -> bool
  {
    c => CallsQuerySelects(q, c)
  }

  function SelectedCallsWith(q: ReportsQuery, status: string): Call -> bool
  {
    c => CallsQuerySelects(q, c) && c.status == status
  }

  function SelectedTimedCalls(q: ReportsQuery): Call -> bool
  {
    c => CallsQuerySelects(q, c) && c.duration.Some?
  }

  function DurationOrZero(c: Call): int { OrZero(c.duration) }

  method BuildCallsWhere(q: ReportsQuery) returns (w: CallWhere)
    ensures forall c :: CallMatches(w, c) <==> CallsQuerySelects(q, c)
    ensures w.status == AnyText
  {
    var created := BuildDateBounds(q.startDate, q.endDate);
    w := AllCalls.(dateCreate := created);
    if q.operatorId.Some? {
      w := w.(operatorId := q.operatorId);
    }
  }

  datatype CallsReport = CallsReport(totalCalls: nat, answeredCalls: nat, missedCalls: nat, avgDuration: int, answerRate: int)

  /**
   * Counts of the selected calls, of the answered and of the missed among them
   * (other statuses are in neither), the rounded mean duration of the calls
   * that have one, and the rounded answer percentage.
   */
  method GetCallsReport(q: ReportsQuery, calls: seq<Call>) returns (r: CallsReport)
    ensures r.totalCalls == CountIf(calls, SelectedCalls(q))
    ensures r.answeredCalls == CountIf(calls, SelectedCallsWith(q, Answered))
    ensures r.missedCalls == CountIf(calls, SelectedCallsWith(q, Missed))
    ensures r.avgDuration == RoundedMean(SumIf(calls, SelectedTimedCalls(q), DurationOrZero), CountIf(calls, SelectedTimedCalls(q)))
    ensures r.answeredCalls + r.missedCalls <= r.totalCalls
    ensures 0 <= r.answerRate <= 100
    ensures r.totalCalls == 0 ==> r.answerRate == 0
    ensures r.answerRate == RoundedRate(r.answeredCalls, r.totalCalls)
  {
    var w := BuildCallsWhere(q);
    var answeredWhere := w.(status := TextIs(Answered));
    var missedWhere := w.(status := TextIs(Missed));
    var total := CountIf(calls, MatchCall(w));
    var answered := CountIf(calls, MatchCall(answeredWhere));
    var missed := CountIf(calls, MatchCall(missedWhere));
    var timed := (c: Call) => CallMatches(w, c) && c.duration.Some?;
    CountIfExt(calls, MatchCall(w), SelectedCalls(q));
    CountIfExt(calls, MatchCall(answeredWhere), SelectedCallsWith(q, Answered));
    CountIfExt(calls, MatchCall(missedWhere), SelectedCallsWith(q, Missed));
    CountIfExt(calls, timed, SelectedTimedCalls(q));
    var durations := SumIf(calls, timed, DurationOrZero);
    SumIfExt(calls, timed, SelectedTimedCalls(q), DurationOrZero, DurationOrZero);
    var either := (c: Call) => CallsQuerySelects(q, c) && (c.status == Answered || c.status == Missed);
    assert Answered != Missed by {
      assert Answered[0] != Missed[0];
    }
    CountIfSplit(calls, either, SelectedCallsWith(q, Answered), SelectedCallsWith(q, Missed));
    CountIfMonotone(calls, either, SelectedCalls(q));
    r := CallsReport(total, answered, missed, RoundedMean(durations, CountIf(calls, timed)), RoundedRate(answered, total));
  }

  // --------------------------------------------------- orders of one city

  predicate CityDetailSelects(city: string, q: ReportsQuery, o: Order)
  {
    o.city == city && WithinDates(q.startDate, q.endDate, Some(o.createDate))
  }

  /** `where.createDate = { ...where.createDate, gte }`, then the same for `lte`. */
  method BuildCityDetailWhere(city: string, q: ReportsQuery) returns (w: OrderWhere)
    ensures forall o :: OrderMatches(w, o) <==> CityDetailSelects(city, q, o)
  {
    w := AllOrders.(city := TextIs(city));
    if q.startDate.Some? {
      w := w.(createDate := Some(DateBounds(None, None).(gte := q.startDate)));
    }
    if q.endDate.Some? {
      var range := if w.createDate.Some? then w.createDate.value else DateBounds(None, None);
      w := w.(createDate := Some(range.(lte := q.endDate)));
    }
  }

  /** The orders of one city in the query's creation window, newest first. */
  method GetCityDetailedReport(city: string, q: ReportsQuery, orders: seq<Order>) returns (data: seq<Order>)
    ensures multiset(data) == multiset(Filter(orders, o => CityDetailSelects(city, q, o)))
    ensures SortedDesc(data, CreateDate)
  {
    var w := BuildCityDetailWhere(city, q);
    FilterExt(orders, MatchOrder(w), o => CityDetailSelects(city, q, o));
    data := SortDesc(Filter(orders, MatchOrder(w)), CreateDate);
  }

  // ------------------------------------------------- a master's own numbers

  datatype MasterCityStatistics = MasterCityStatistics(
    city: string,
    closedOrders: nat,
    modernOrders: nat,
    totalRevenue: int,
    averageCheck: real,
    salary: int)

  /** `master.findUnique({ where: { id } })` */
  function FindMaster(roster: seq<Master>, id: int): (r: Option<Master>)
    ensures r.None? <==> forall i :: 0 <= i < |roster| ==> roster[i].id != id
    ensures r.Some? ==> r.value in roster && r.value.id == id
  {
    Find(roster, (m: Master) => m.id == id)
  }

  /** The master's orders in one city with a given status, closed inside the window. */
  function MasterOrdersIn(id: int, q: ReportsQuery, city: string, status: string): Order -> bool
  {
    (o: Order) => o.masterId == Some(id) && WithinDates(q.startDate, q.endDate, o.closingData)
         && o.city == city && o.statusOrder == status
  }

  function CleanOrZero(o: Order): int { OrZero(o.clean) }
  function MasterChangeOrZero(o: Order): int { OrZero(o.masterChange) }

  function CityStatisticsOf(id: int, q: ReportsQuery, city: string, orders: seq<Order>): (s: MasterCityStatistics)
    ensures s.city == city
    ensures s.closedOrders == CountIf(orders, MasterOrdersIn(id, q, city, Done))
    ensures s.modernOrders == CountIf(orders, MasterOrdersIn(id, q, city, Modern))
    ensures s.totalRevenue == SumIf(orders, MasterOrdersIn(id, q, city, Done), CleanOrZero)
    ensures s.salary == SumIf(orders, MasterOrdersIn(id, q, city, Done), MasterChangeOrZero)
    ensures s.closedOrders == 0 ==> s.averageCheck == 0.0
    ensures s.closedOrders > 0 ==> s.averageCheck * s.closedOrders as real == s.totalRevenue as real
  {
    var closed := CountIf(orders, MasterOrdersIn(id, q, city, Done));
    var clean := SumIf(orders, MasterOrdersIn(id, q, city, Done), CleanOrZero);
    MasterCityStatistics(
      city,
      closed,
      CountIf(orders, MasterOrdersIn(id, q, city, Modern)),
      clean,
      Ratio(clean, closed),
      SumIf(orders, MasterOrdersIn(id, q, city, Done), MasterChangeOrZero))
  }

  const MasterIdMissing: string := "Master ID not found in token"
  const MasterMissing: string := "Master not found"

  /**
   * The signed-in master's numbers per city of theirs. A token without a
   * truthy user id fails before the master is looked up; an unknown master
   * fails next.
   */
  function MasterStatistics(q: ReportsQuery, user: Option<User>, roster: seq<Master>, orders: seq<Order>)
    : (r: Result<seq<MasterCityStatistics>>)
    ensures (user.None? || user.value.userId.None? || user.value.userId == Some(0)) <==> r == Failure(MasterIdMissing)
    ensures r == Failure(MasterMissing) <==>
              user.Some? && user.value.userId.Some? && user.value.userId != Some(0)
              && FindMaster(roster, user.value.userId.value).None?
    ensures r.Success? ==>
              var m := FindMaster(roster, user.value.userId.value).value;
              |r.value| == |m.cities|
              && forall i :: 0 <= i < |m.cities| ==> r.value[i] == CityStatisticsOf(m.id, q, m.cities[i], orders)
  {
    if user.None? || user.value.userId.None? || user.value.userId == Some(0) then
      Failure(MasterIdMissing)
    else
      match FindMaster(roster, user.value.userId.value)
      case None =>
        assert MasterMissing != MasterIdMissing by {
          assert MasterMissing[7] != MasterIdMissing[7];
        }
        Failure(MasterMissing)
      case Some(m) =>
        Success(seq(|m.cities|, i requires 0 <= i < |m.cities| => CityStatisticsOf(m.id, q, m.cities[i], orders)))
  }
}
