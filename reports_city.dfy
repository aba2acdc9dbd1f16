/**
 * The city report: per visible city, order counts by status group, turnover
 * split by partner, profit, the largest check, check categories, the
 * 'Модерн' count and the cash balance, folded from four grouped queries.
 */
module ReportsCity {
  import opened Wrappers
  import opened Records
  import opened Folds
  import opened Numeric
  import opened Grouping
  import opened QueryFilter
  import opened ReportsService

  /** A row of the orders grouped by (city, status_order, partner); the sums and the maximum are 0 for no value. */
  datatype OrderStat = OrderStat(
    city: string,
    statusOrder: string,
    partner: Option<bool>,
    count: nat,
    sumClean: int,
    sumMasterChange: int,
    maxClean: int)

  datatype CheckCategory = CheckCategory(city: string, microCount: nat, over10kCount: nat)

  datatype ModernStat = ModernStat(city: string, modernCount: nat)

  datatype CashStat = CashStat(city: string, name: string, totalAmount: int)

  datatype CityOrders = CityOrders(
    closedOrders: int,
    refusals: int,
    notOrders: int,
    totalClean: int,
    totalCleanOur: int,
    totalCleanPartner: int,
    totalMasterChange: int,
    avgCheck: real)

  datatype CityStats = CityStats(
    turnover: int,
    profit: int,
    totalOrders: int,
    notOrders: int,
    zeroOrders: int,
    completedOrders: int,
    completedPercent: real,
    microCheckCount: int,
    over10kCount: int,
    avgCheck: real,
    maxCheck: int,
    masterHandover: int)

  datatype CityRow = CityRow(city: string, orders: CityOrders, stats: CityStats, cashTotalAmount: int)

  // ------------------------------------------------------ per-city fold

  function OfCity(city: string): OrderStat -> bool
  {
    (s: OrderStat) => s.city == city
  }

  function StatusIn(statuses: seq<string>): OrderStat -> bool
  {
    (s: OrderStat) => s.statusOrder in statuses
  }

  function CompletedWithZero(): OrderStat -> bool
  {
    (s: OrderStat) => s.statusOrder in [Done, Refused] && s.sumClean == 0
  }

  function DoneWithMoney(): OrderStat -> bool
  {
    (s: OrderStat) => s.statusOrder == Done && s.sumClean > 0
  }

  /** 'Готово' rows whose partner flag is false or null. */
  function DoneOur(): OrderStat -> bool
  {
    (s: OrderStat) => s.statusOrder == Done && (s.partner == Some(false) || s.partner.None?)
  }

  function DonePartner(): OrderStat -> bool
  {
    (s: OrderStat) => s.statusOrder == Done && s.partner == Some(true)
  }

  function StatCount(s: OrderStat): int { s.count }
  function StatClean(s: OrderStat): int { s.sumClean }
  function StatMasterChange(s: OrderStat): int { s.sumMasterChange }
  function StatMaxClean(s: OrderStat): int { s.maxClean }

  /** `cityCash.find(c => c.name === name)?.total_amount || 0` */
  function CashAmount(cityCash: seq<CashStat>, name: string): int
  {
    match Find(cityCash, (c: CashStat) => c.name == name)
    case Some(c) => c.totalAmount
    case None => 0
  }

  /** The status-group counts and sums of one city's grouped rows. */
  datatype Tally = Tally(
    totalOrders: int,
    completedOrders: int,
    notOrders: int,
    zeroOrders: int,
    completedWithMoney: int,
    turnover: int,
    turnoverOur: int,
    turnoverPartner: int,
    profit: int,
    maxCheck: int)

  function TallyOf(cityOrders: seq<OrderStat>): (t: Tally)
    ensures t.totalOrders == t.completedOrders + t.notOrders
    ensures t.turnover == t.turnoverOur + t.turnoverPartner
    ensures 0 <= t.zeroOrders <= t.completedOrders
    ensures 0 <= t.completedWithMoney <= t.completedOrders
    ensures t.zeroOrders == SumIf(cityOrders, CompletedWithZero(), StatCount)
    ensures t.completedWithMoney == SumIf(cityOrders, DoneWithMoney(), StatCount)
    ensures t.maxCheck >= 0
    ensures forall s :: s in cityOrders && s.statusOrder == Done ==> s.maxClean <= t.maxCheck
    ensures t.maxCheck == 0 || exists s :: s in cityOrders && s.statusOrder == Done && s.maxClean == t.maxCheck
  {
    CityCountsPartition(cityOrders);
    CityTurnoverPartition(cityOrders);
    SumIfMonotone(cityOrders, CompletedWithZero(), StatusIn([Done, Refused]), StatCount);
    SumIfMonotone(cityOrders, DoneWithMoney(), StatusIn([Done, Refused]), StatCount);
    Tally(
      SumIf(cityOrders, StatusIn([Done, Refused, NonOrder]), StatCount),
      SumIf(cityOrders, StatusIn([Done, Refused]), StatCount),
      SumIf(cityOrders, StatusIn([NonOrder]), StatCount),
      SumIf(cityOrders, CompletedWithZero(), StatCount),
      SumIf(cityOrders, DoneWithMoney(), StatCount),
      SumIf(cityOrders, StatusIn([Done]), StatClean),
      SumIf(cityOrders, DoneOur(), StatClean),
      SumIf(cityOrders, DonePartner(), StatClean),
      SumIf(cityOrders, StatusIn([Done]), StatMasterChange),
      MaxIf(cityOrders, StatusIn([Done]), StatMaxClean, 0))
  }

  /**
   * `cityChecks ? Number(cityChecks.micro_count) : 0` and the same for
   * `over10k_count`, where `cityChecks` is the first category row of the city.
   */
  function CheckCountsOf(checks: seq<CheckCategory>, cityName: string): (r: (int, int))
    ensures (forall c :: c in checks ==> c.city != cityName) ==> r == (0, 0)
    ensures (exists c :: c in checks && c.city == cityName) ==>
              exists c :: c in checks && c.city == cityName && r == (c.microCount, c.over10kCount)
  {
    var found := Find(checks, (c: CheckCategory) => c.city == cityName);
    if found.Some? then
      (found.value.microCount, found.value.over10kCount)
    else
      assert forall c :: c in checks ==> c.city != cityName by {
        forall c | c in checks
          ensures c.city != cityName
        {
          var i :| 0 <= i < |checks| && checks[i] == c;
        }
      }
      (0, 0)
  }

  /** `cityModern ? Number(cityModern.modern_count) : 0`, where `cityModern` is the first 'Модерн' row of the city. */
  function ModernCountOf(modern: seq<ModernStat>, cityName: string): (r: int)
    ensures (forall m :: m in modern ==> m.city != cityName) ==> r == 0
    ensures (exists m :: m in modern && m.city == cityName) ==>
              exists m :: m in modern && m.city == cityName && r == m.modernCount
  {
    var found := Find(modern, (m: ModernStat) => m.city == cityName);
    if found.Some? then
      found.value.modernCount
    else
      assert forall m :: m in modern ==> m.city != cityName by {
        forall m | m in modern
          ensures m.city != cityName
        {
          var i :| 0 <= i < |modern| && modern[i] == m;
        }
      }
      0
  }

  function CityCash(cash: seq<CashStat>, cityName: string): seq<CashStat>
  {
    Filter(cash, (c: CashStat) => c.city == cityName)
  }

  /**
   * One city's row. Its totals partition: every order counted is completed
   * or a non-order, and the turnover is our part plus the partners'.
   */
  function CityRowOf(cityName: string, orderStats: seq<OrderStat>, checks: seq<CheckCategory>,
                     modern: seq<ModernStat>, cash: seq<CashStat>): (r: CityRow)
    ensures r.city == cityName
    ensures r.stats.totalOrders == r.stats.completedOrders + r.stats.notOrders
    ensures r.stats.turnover == r.orders.totalCleanOur + r.orders.totalCleanPartner
    ensures 0 <= r.stats.zeroOrders <= r.stats.completedOrders
    ensures 0.0 <= r.stats.completedPercent <= 100.0
    ensures r.stats.completedOrders == 0 ==> r.stats.completedPercent == 0.0 && r.stats.avgCheck == 0.0
    ensures r.stats.avgCheck == Ratio(r.stats.turnover, r.stats.completedOrders)
    ensures r.stats.completedOrders > 0 ==> r.stats.avgCheck * r.stats.completedOrders as real == r.stats.turnover as real
    ensures r.stats.maxCheck >= 0
    ensures forall s :: s in orderStats && s.city == cityName && s.statusOrder == Done ==> s.maxClean <= r.stats.maxCheck
    ensures r.orders.refusals == 0
    ensures r.orders.closedOrders == r.stats.completedOrders && r.orders.notOrders == r.stats.notOrders
    ensures r.orders.totalClean == r.stats.turnover && r.orders.totalMasterChange == r.stats.profit
    ensures r.cashTotalAmount == CashAmount(CityCash(cash, cityName), Income) - CashAmount(CityCash(cash, cityName), Expense)
  {
    var cityCash := CityCash(cash, cityName);
    var t := CityTally(orderStats, cityName);
    var stats := CityStatsOf(t, CheckCountsOf(checks, cityName), ModernCountOf(modern, cityName));
    CityRow(
      cityName,
      CityOrders(t.completedOrders, 0, t.notOrders, t.turnover, t.turnoverOur, t.turnoverPartner, t.profit, stats.avgCheck),
      stats,
      CashAmount(cityCash, Income) - CashAmount(cityCash, Expense))
  }

  /**
   * The rest of a city row's `stats` block, each read from the city's rows:
   * the largest 'Готово' check is 0 or some row's, the zero-check and
   * with-money counts are the city's, and the micro, over-10k and modern
   * counts come from the city's first row in each list.
   */
  lemma CityRowStatsCounts(cityName: string, orderStats: seq<OrderStat>, checks: seq<CheckCategory>,
                           modern: seq<ModernStat>, cash: seq<CashStat>)
    ensures var r := CityRowOf(cityName, orderStats, checks, modern, cash);
            (r.stats.maxCheck == 0
             || exists s :: s in orderStats && s.city == cityName && s.statusOrder == Done && s.maxClean == r.stats.maxCheck)
    ensures var r := CityRowOf(cityName, orderStats, checks, modern, cash);
            r.stats.zeroOrders == SumIf(Filter(orderStats, OfCity(cityName)), CompletedWithZero(), StatCount)
    ensures var r := CityRowOf(cityName, orderStats, checks, modern, cash);
            r.stats.completedPercent
            == Percent(SumIf(Filter(orderStats, OfCity(cityName)), DoneWithMoney(), StatCount), r.stats.completedOrders)
    ensures var r := CityRowOf(cityName, orderStats, checks, modern, cash);
            (r.stats.microCheckCount, r.stats.over10kCount) == CheckCountsOf(checks, cityName)
    ensures CityRowOf(cityName, orderStats, checks, modern, cash).stats.masterHandover == ModernCountOf(modern, cityName)
  {
  }

  /** The tally of one city's grouped rows, read against all the rows. */
  function CityTally(orderStats: seq<OrderStat>, cityName: string): (t: Tally)
    ensures t == TallyOf(Filter(orderStats, OfCity(cityName)))
    ensures forall s :: s in orderStats && s.city == cityName && s.statusOrder == Done ==> s.maxClean <= t.maxCheck
    ensures t.maxCheck == 0
         || exists s :: s in orderStats && s.city == cityName && s.statusOrder == Done && s.maxClean == t.maxCheck
  {
    var cityOrders := Filter(orderStats, OfCity(cityName));
    var t := TallyOf(cityOrders);
    assert forall s :: s in orderStats && s.city == cityName ==> s in cityOrders;
    t
  }

  /**
   * The `stats` block of a city row: `turnover / completedOrders` and
   * `completedWithMoney / completedOrders * 100`, both 0 without completed orders.
   */
  function CityStatsOf(t: Tally, checkCounts: (int, int), modernOrders: int): (s: CityStats)
    ensures s.turnover == t.turnover && s.profit == t.profit && s.totalOrders == t.totalOrders
    ensures s.notOrders == t.notOrders && s.zeroOrders == t.zeroOrders && s.completedOrders == t.completedOrders
    ensures (s.microCheckCount, s.over10kCount) == checkCounts && s.masterHandover == modernOrders
    ensures s.maxCheck == t.maxCheck
    ensures s.avgCheck == Ratio(t.turnover, t.completedOrders)
    ensures s.completedPercent == Percent(t.completedWithMoney, t.completedOrders)
    ensures s.completedOrders == 0 ==> s.completedPercent == 0.0 && s.avgCheck == 0.0
    ensures s.completedOrders > 0 ==> s.avgCheck * s.completedOrders as real == s.turnover as real
    ensures 0 <= t.completedWithMoney <= t.completedOrders ==> 0.0 <= s.completedPercent <= 100.0
  {
    var avgCheck := Ratio(t.turnover, t.completedOrders);
    var completedPercent := Percent(t.completedWithMoney, t.completedOrders);
    CityStats(t.turnover, t.profit, t.totalOrders, t.notOrders, t.zeroOrders, t.completedOrders, completedPercent,
              checkCounts.0, checkCounts.1, avgCheck, t.maxCheck, modernOrders)
  }

  lemma StatusesDiffer()
    ensures Done != Refused && Done != NonOrder && Refused != NonOrder
  {
    assert Done[0] != Refused[0] && Done[0] != NonOrder[0] && Refused[0] != NonOrder[0];
  }

  /** 'Готово', 'Отказ' and 'Незаказ' rows split into the completed ones and the non-orders. */
  lemma CityCountsPartition(rows: seq<OrderStat>)
    ensures SumIf(rows, StatusIn([Done, Refused, NonOrder]), StatCount)
         == SumIf(rows, StatusIn([Done, Refused]), StatCount) + SumIf(rows, StatusIn([NonOrder]), StatCount)
  {
    StatusesDiffer();
    SumIfSplit(rows, StatusIn([Done, Refused, NonOrder]), StatusIn([Done, Refused]), StatusIn([NonOrder]), StatCount);
  }

  /** The 'Готово' turnover splits by the partner flag: true on one side, false or null on the other. */
  lemma CityTurnoverPartition(rows: seq<OrderStat>)
    ensures SumIf(rows, StatusIn([Done]), StatClean) == SumIf(rows, DoneOur(), StatClean) + SumIf(rows, DonePartner(), StatClean)
  {
    forall s | s in rows
      ensures (StatusIn([Done])(s) <==> DoneOur()(s) || DonePartner()(s)) && !(DoneOur()(s) && DonePartner()(s))
    {
      assert StatusIn([Done])(s) <==> s.statusOrder == Done;
      match s.partner
      case None =>
      case Some(b) => assert s.partner == Some(true) || s.partner == Some(false);
    }
    SumIfSplit(rows, StatusIn([Done]), DoneOur(), DonePartner(), StatClean);
  }

  // ------------------------------------------------ the cities reported

  /** The orders the city query selects: closed in the window, in the requested city if any. */
  predicate CityOrdersSelects(q: ReportsQuery, o: Order)
  {
    WithinDates(q.startDate, q.endDate, o.closingData) && (q.city.None? || o.city == q.city.value)
  }

  function CitiesOf(xs: seq<Order>): seq<string>
  {
    seq(|xs|, i requires 0 <= i < |xs| => xs[i].city)
  }

  /**
   * A director's own cities; for anyone else the distinct cities of the
   * selected orders, in order of first appearance.
   */
  function CityList(q: ReportsQuery, user: Option<User>, orders: seq<Order>): seq<string>
  {
    if IsScopedDirector(user) then Filter(DirectorCities(user), c => c in DirectorCities(user))
    else Dedup(CitiesOf(Filter(orders, o => CityOrdersSelects(q, o))))
  }

  /** Every reported city is visible to the user, and a requested city is the only one reported to a non-director. */
  lemma CityListAllowed(q: ReportsQuery, user: Option<User>, orders: seq<Order>, c: string)
    requires c in CityList(q, user, orders)
    ensures CityAllowed(user, c)
    ensures !IsScopedDirector(user) && q.city.Some? ==> c == q.city.value
  {
    if !IsScopedDirector(user) {
      var xs := Filter(orders, o => CityOrdersSelects(q, o));
      var ds := Dedup(CitiesOf(xs));
      var k :| 0 <= k < |ds| && ds[k] == c;
      var i :| 0 <= i < |CitiesOf(xs)| && CitiesOf(xs)[i] == c;
      assert xs[i] in xs;
    }
  }

  /**
   * `getCityReport`: nothing for a director asking for a city outside their
   * list or when no city is left, else one row per listed city.
   */
  method GetCityReport(q: ReportsQuery, user: Option<User>, orders: seq<Order>, orderStats: seq<OrderStat>,
                       checks: seq<CheckCategory>, modern: seq<ModernStat>, cash: seq<CashStat>)
    returns (data: seq<CityRow>)
    ensures q.city.Some? && !CityAllowed(user, q.city.value) ==> data == []
    ensures !(q.city.Some? && !CityAllowed(user, q.city.value)) ==>
              |data| == |CityList(q, user, orders)|
              && forall i :: 0 <= i < |data| ==>
                   data[i] == CityRowOf(CityList(q, user, orders)[i], orderStats, checks, modern, cash)
  {
    var closing := BuildDateBounds(q.startDate, q.endDate);
    var w := AllOrders.(closingData := closing);
    if q.city.Some? {
      if IsScopedDirector(user) && q.city.value !in DirectorCities(user) {
        return [];
      }
      w := w.(city := TextIs(q.city.value));
    }
    var cityList;
    if IsScopedDirector(user) {
      cityList := Filter(DirectorCities(user), c => c in DirectorCities(user));
    } else {
      FilterExt(orders, MatchOrder(w), o => CityOrdersSelects(q, o));
      cityList := Dedup(CitiesOf(Filter(orders, MatchOrder(w))));
    }
    if |cityList| == 0 {
      return [];
    }
    data := seq(|cityList|, i requires 0 <= i < |cityList| => CityRowOf(cityList[i], orderStats, checks, modern, cash));
  }

  // ------------------------------------------ the grouped rows and the raw

  function StatKey(s: OrderStat): (string, string, Option<bool>) { (s.city, s.statusOrder, s.partner) }
  function OrderKey(o: Order): (string, string, Option<bool>) { (o.city, o.statusOrder, o.partner) }
  function One(o: Order): int { 1 }

  /** `orderStats` is the grouping of the raw rows `xs` on (city, status_order, partner). */
  ghost predicate GroupsOrders(orderStats: seq<OrderStat>, xs: seq<Order>)
  {
    DistinctKeys(orderStats, StatKey)
    && Covers(xs, OrderKey, orderStats, StatKey)
    && AggregatesBy(xs, OrderKey, One, orderStats, StatKey, StatCount)
    && AggregatesBy(xs, OrderKey, CleanOrZero, orderStats, StatKey, StatClean)
    && AggregatesBy(xs, OrderKey, MasterChangeOrZero, orderStats, StatKey, StatMasterChange)
  }

  function KeyIn(city: string, statuses: seq<string>): ((string, string, Option<bool>)) -> bool
  {
    (k: (string, string, Option<bool>)) => k.0 == city && k.1 in statuses
  }

  function RawIn(city: string, statuses: seq<string>): Order -> bool
  {
    (o: Order) => o.city == city && o.statusOrder in statuses
  }

  lemma CityFold(orderStats: seq<OrderStat>, xs: seq<Order>, city: string, statuses: seq<string>,
                 gf: OrderStat -> int, f: Order -> int)
    requires DistinctKeys(orderStats, StatKey) && Covers(xs, OrderKey, orderStats, StatKey)
    requires AggregatesBy(xs, OrderKey, f, orderStats, StatKey, gf)
    ensures SumIf(Filter(orderStats, OfCity(city)), StatusIn(statuses), gf) == SumIf(xs, RawIn(city, statuses), f)
  {
    var both := (s: OrderStat) => OfCity(city)(s) && StatusIn(statuses)(s);
    SumIfOfFilter(orderStats, OfCity(city), StatusIn(statuses), both, gf);
    GroupedFilterSum(xs, OrderKey, f, RawIn(city, statuses), orderStats, StatKey, gf, both, KeyIn(city, statuses));
  }

  /**
   * The grouped fold counts what per-city queries over the raw orders count:
   * the orders 'Готово', 'Отказ' or 'Незаказ', and the clean and
   * master-change sums of the 'Готово' ones.
   */
  lemma CityRowCountsOrders(cityName: string, orderStats: seq<OrderStat>, checks: seq<CheckCategory>,
                            modern: seq<ModernStat>, cash: seq<CashStat>, xs: seq<Order>)
    requires GroupsOrders(orderStats, xs)
    ensures CityRowOf(cityName, orderStats, checks, modern, cash).stats.totalOrders
         == CountIf(xs, RawIn(cityName, [Done, Refused, NonOrder]))
    ensures CityRowOf(cityName, orderStats, checks, modern, cash).stats.turnover
         == SumIf(xs, RawIn(cityName, [Done]), CleanOrZero)
    ensures CityRowOf(cityName, orderStats, checks, modern, cash).stats.profit
         == SumIf(xs, RawIn(cityName, [Done]), MasterChangeOrZero)
  {
    CityFold(orderStats, xs, cityName, [Done, Refused, NonOrder], StatCount, One);
    CountIsSumOfOnes(xs, RawIn(cityName, [Done, Refused, NonOrder]), One);
    CityFold(orderStats, xs, cityName, [Done], StatClean, CleanOrZero);
    CityFold(orderStats, xs, cityName, [Done], StatMasterChange, MasterChangeOrZero);
  }
}
