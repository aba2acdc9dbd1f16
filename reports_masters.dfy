/**
 * The masters report: one row per (master, city of the master), counted from
 * a `groupBy(['masterId', 'city', 'statusOrder'])` of the orders closed in the
 * window. The service picks the masters, fetches the grouped rows once, and
 * folds them in two nested loops.
 */
module ReportsMasters {
  import opened Wrappers
  import opened Records
  import opened Folds
  import opened Grouping
  import opened QueryFilter
  import opened ReportsService

  /** One grouped row: its key, `_count.id`, `_sum.clean` and `_sum.masterChange`. */
  datatype MasterGroup = MasterGroup(
    masterId: Option<int>,
    city: string,
    statusOrder: string,
    count: nat,
    sumClean: Option<int>,
    sumMasterChange: Option<int>)

  datatype MasterRow = MasterRow(
    masterId: int,
    masterName: string,
    city: string,
    totalOrders: int,
    turnover: int,
    avgCheck: real,
    salary: int)

  // ------------------------------------------------------------ the query

  /** The `where` of the grouped query: closed in the window, with a master, the requested one if any. */
  predicate MastersStatsSelects(q: ReportsQuery, o: Order)
  {
    WithinDates(q.startDate, q.endDate, o.closingData)
    && o.masterId.Some?
    && (q.masterId.None? || o.masterId == q.masterId)
  }

  /**
   * `orderWhere` with `closingData` and `masterId`, then
   * `{ ...orderWhere, masterId: { not: null }, ...(masterId && { masterId }) }`.
   */
  method BuildMastersStatsWhere(q: ReportsQuery) returns (w: OrderWhere)
    ensures forall o :: OrderMatches(w, o) <==> MastersStatsSelects(q, o)
  {
    var closing := BuildDateBounds(q.startDate, q.endDate);
    w := AllOrders.(closingData := closing);
    if q.masterId.Some? {
      w := w.(masterId := IdIs(q.masterId.value));
    }
    w := w.(masterId := IdNotNull);
    if q.masterId.Some? {
      w := w.(masterId := IdIs(q.masterId.value));
    }
  }

  /** A director sees the masters working in one of their cities; anyone else the requested master, or all. */
  predicate MasterWanted(user: Option<User>, masterId: Option<int>, m: Master)
  {
    if IsScopedDirector(user) then exists c :: c in m.cities && c in DirectorCities(user)
    else masterId.None? || m.id == masterId.value
  }

  function SelectMasters(roster: seq<Master>, user: Option<User>, masterId: Option<int>): (ms: seq<Master>)
    ensures forall m :: m in ms <==> m in roster && MasterWanted(user, masterId, m)
  {
    Filter(roster, m => MasterWanted(user, masterId, m))
  }

  // -------------------------------------------------------- one row's fold

  function OfMasterCity(id: int, city: string): MasterGroup -> bool
  {
    (g: MasterGroup) => g.masterId == Some(id) && g.city == city
  }

  function StatusIn(statuses: seq<string>): MasterGroup -> bool
  {
    (g: MasterGroup) => g.statusOrder in statuses
  }

  function GroupCount(g: MasterGroup): int { g.count }
  function GroupClean(g: MasterGroup): int { OrZero(g.sumClean) }
  function GroupMasterChange(g: MasterGroup): int { OrZero(g.sumMasterChange) }

  /**
   * The row of one master in one city: orders 'Готово' or 'Отказ', the clean
   * and master-change sums of the 'Готово' ones (null as 0), and their ratio.
   */
  function MasterCityRow(m: Master, city: string, groups: seq<MasterGroup>): (r: MasterRow)
    ensures r.masterId == m.id && r.masterName == m.name && r.city == city
    ensures r.totalOrders >= 0
    ensures r.totalOrders == 0 ==> r.avgCheck == 0.0
    ensures r.totalOrders > 0 ==> r.avgCheck * r.totalOrders as real == r.turnover as real
  {
    var stats := Filter(groups, OfMasterCity(m.id, city));
    var totalOrders := SumIf(stats, StatusIn([Done, Refused]), GroupCount);
    var turnover := SumIf(stats, StatusIn([Done]), GroupClean);
    var salary := SumIf(stats, StatusIn([Done]), GroupMasterChange);
    SumIfMonotone(stats, StatusIn([Done, Refused]), StatusIn([Done, Refused]), GroupCount);
    MasterRow(m.id, m.name, city, totalOrders, turnover, Numeric.Ratio(turnover, totalOrders), salary)
  }

  // --------------------------------------------- the rows and their order

  /** The (master, city) pairs the loops visit, master by master, skipping cities a director may not see. */
  function CityPairs(m: Master, cities: seq<string>, user: Option<User>): seq<(Master, string)>
  {
    if cities == [] then []
    else
      var c := cities[|cities| - 1];
      CityPairs(m, cities[..|cities| - 1], user) + (if CityAllowed(user, c) then [(m, c)] else [])
  }

  function Pairs(ms: seq<Master>, user: Option<User>): seq<(Master, string)>
  {
    if ms == [] then [] else Pairs(ms[..|ms| - 1], user) + CityPairs(ms[|ms| - 1], ms[|ms| - 1].cities, user)
  }

  lemma {:induction false} CityPairsMember(m: Master, cities: seq<string>, user: Option<User>, p: (Master, string))
    ensures p in CityPairs(m, cities, user) <==> p.0 == m && p.1 in cities && CityAllowed(user, p.1)
  {
    if cities != [] {
      var init := cities[..|cities| - 1];
      assert cities == init + [cities[|cities| - 1]];
      CityPairsMember(m, init, user, p);
    }
  }

  /** A pair is visited exactly when its city is one of its master's and is visible to the user. */
  lemma {:induction false} PairsMember(ms: seq<Master>, user: Option<User>, p: (Master, string))
    ensures p in Pairs(ms, user) <==> p.0 in ms && p.1 in p.0.cities && CityAllowed(user, p.1)
  {
    if ms != [] {
      var init := ms[..|ms| - 1];
      var last := ms[|ms| - 1];
      assert ms == init + [last];
      PairsMember(init, user, p);
      CityPairsMember(last, last.cities, user, p);
    }
  }

  lemma {:induction false} CityPairsCount(m: Master, cities: seq<string>, user: Option<User>)
    ensures |CityPairs(m, cities, user)| == CountIf(cities, c => CityAllowed(user, c))
  {
    if cities != [] {
      var init := cities[..|cities| - 1];
      assert cities == init + [cities[|cities| - 1]];
      CityPairsCount(m, init, user);
      CountIfAppend(init, [cities[|cities| - 1]], c => CityAllowed(user, c));
    }
  }

  /** Without a director's restriction there is one row per city of every master. */
  lemma {:induction false} PairsCountUnrestricted(ms: seq<Master>, user: Option<User>)
    requires !IsScopedDirector(user)
    ensures |Pairs(ms, user)| == Sum(ms, CityCount)
  {
    if ms != [] {
      var init := ms[..|ms| - 1];
      var last := ms[|ms| - 1];
      assert ms == init + [last];
      PairsCountUnrestricted(init, user);
      CityPairsCount(last, last.cities, user);
      CountIfAll(last.cities, c => CityAllowed(user, c));
      SumAppend(init, [last], CityCount);
    }
  }

  function CityCount(m: Master): int { |m.cities| }

  /**
   * The two nested loops: for each master, for each of its cities, skip a
   * city a director may not see, else fold the grouped rows into a row.
   */
  method BuildMasterRows(masters: seq<Master>, user: Option<User>, groups: seq<MasterGroup>) returns (rows: seq<MasterRow>)
    ensures |rows| == |Pairs(masters, user)|
    ensures forall k :: 0 <= k < |rows| ==>
              rows[k] == MasterCityRow(Pairs(masters, user)[k].0, Pairs(masters, user)[k].1, groups)
  {
    rows := [];
    var i := 0;
    while i < |masters|
      invariant 0 <= i <= |masters|
      invariant RowsOf(rows, Pairs(masters[..i], user), groups)
    {
      rows := AddMasterRows(rows, Pairs(masters[..i], user), masters[i], user, groups);
      PairsNext(masters, i, user);
      i := i + 1;
    }
    assert masters[..i] == masters;
  }

  /** The inner loop: one row per city of `master` that the user may see, appended in city order. */
  method AddMasterRows(rows0: seq<MasterRow>, ghost ps: seq<(Master, string)>, master: Master, user: Option<User>,
                       groups: seq<MasterGroup>) returns (rows: seq<MasterRow>)
    requires RowsOf(rows0, ps, groups)
    ensures RowsOf(rows, ps + CityPairs(master, master.cities, user), groups)
  {
    rows := rows0;
    var j := 0;
    while j < |master.cities|
      invariant 0 <= j <= |master.cities|
      invariant RowsOf(rows, ps + CityPairs(master, master.cities[..j], user), groups)
    {
      var city := master.cities[j];
      CityPairsNext(master, master.cities, j, user);
      if IsScopedDirector(user) && city !in DirectorCities(user) {
        j := j + 1;
        continue;
      }
      ghost var before := CityPairs(master, master.cities[..j], user);
      RowsOfAppend(rows, ps + before, (master, city), groups);
      assert (ps + before) + [(master, city)] == ps + (before + [(master, city)]);
      rows := rows + [MasterCityRow(master, city, groups)];
      j := j + 1;
    }
    assert master.cities[..j] == master.cities;
  }

  lemma CityPairsNext(m: Master, cities: seq<string>, j: nat, user: Option<User>)
    requires j < |cities|
    ensures CityAllowed(user, cities[j]) ==> CityPairs(m, cities[..j + 1], user) == CityPairs(m, cities[..j], user) + [(m, cities[j])]
    ensures !CityAllowed(user, cities[j]) ==> CityPairs(m, cities[..j + 1], user) == CityPairs(m, cities[..j], user)
  {
    assert cities[..j + 1][..j] == cities[..j];
    assert CityPairs(m, cities[..j], user) + [] == CityPairs(m, cities[..j], user);
  }

  lemma PairsNext(ms: seq<Master>, i: nat, user: Option<User>)
    requires i < |ms|
    ensures Pairs(ms[..i + 1], user) == Pairs(ms[..i], user) + CityPairs(ms[i], ms[i].cities, user)
  {
    assert ms[..i + 1][..i] == ms[..i];
  }

  lemma RowsOfAppend(rows: seq<MasterRow>, ps: seq<(Master, string)>, p: (Master, string), groups: seq<MasterGroup>)
    requires RowsOf(rows, ps, groups)
    ensures RowsOf(rows + [MasterCityRow(p.0, p.1, groups)], ps + [p], groups)
  {
  }

  /** `rows` is the fold of every pair of `ps`, in order. */
  ghost predicate RowsOf(rows: seq<MasterRow>, ps: seq<(Master, string)>, groups: seq<MasterGroup>)
  {
    |rows| == |ps| && forall k :: 0 <= k < |rows| ==> rows[k] == MasterCityRow(ps[k].0, ps[k].1, groups)
  }

  /** `getMastersReport`: the selected masters' rows over the grouped orders. */
  method GetMastersReport(q: ReportsQuery, user: Option<User>, roster: seq<Master>, groups: seq<MasterGroup>)
    returns (data: seq<MasterRow>)
    ensures var ps := Pairs(SelectMasters(roster, user, q.masterId), user);
            |data| == |ps| && forall k :: 0 <= k < |data| ==> data[k] == MasterCityRow(ps[k].0, ps[k].1, groups)
  {
    var masters := SelectMasters(roster, user, q.masterId);
    data := BuildMasterRows(masters, user, groups);
  }

  // ------------------------------------------ the grouped rows and the raw

  function GroupKey(g: MasterGroup): (Option<int>, string, string) { (g.masterId, g.city, g.statusOrder) }
  function OrderKey(o: Order): (Option<int>, string, string) { (o.masterId, o.city, o.statusOrder) }
  function One(o: Order): int { 1 }

  /** `groups` is the `groupBy` of the raw rows `xs` on (masterId, city, statusOrder). */
  ghost predicate GroupsOrders(groups: seq<MasterGroup>, xs: seq<Order>)
  {
    DistinctKeys(groups, GroupKey)
    && Covers(xs, OrderKey, groups, GroupKey)
    && AggregatesBy(xs, OrderKey, One, groups, GroupKey, GroupCount)
    && AggregatesBy(xs, OrderKey, CleanOrZero, groups, GroupKey, GroupClean)
    && AggregatesBy(xs, OrderKey, MasterChangeOrZero, groups, GroupKey, GroupMasterChange)
  }

  function KeyIn(id: int, city: string, statuses: seq<string>): ((Option<int>, string, string)) -> bool
  {
    (k: (Option<int>, string, string)) => k.0 == Some(id) && k.1 == city && k.2 in statuses
  }

  /** The raw orders of one master in one city with one of the statuses. */
  function RawIn(id: int, city: string, statuses: seq<string>): Order -> bool
  {
    (o: Order) => o.masterId == Some(id) && o.city == city && o.statusOrder in statuses
  }

  lemma RowFold(groups: seq<MasterGroup>, xs: seq<Order>, id: int, city: string, statuses: seq<string>,
                gf: MasterGroup -> int, f: Order -> int)
    requires DistinctKeys(groups, GroupKey) && Covers(xs, OrderKey, groups, GroupKey)
    requires AggregatesBy(xs, OrderKey, f, groups, GroupKey, gf)
    ensures SumIf(Filter(groups, OfMasterCity(id, city)), StatusIn(statuses), gf) == SumIf(xs, RawIn(id, city, statuses), f)
  {
    var both := (g: MasterGroup) => OfMasterCity(id, city)(g) && StatusIn(statuses)(g);
    SumIfOfFilter(groups, OfMasterCity(id, city), StatusIn(statuses), both, gf);
    GroupedFilterSum(xs, OrderKey, f, RawIn(id, city, statuses), groups, GroupKey, gf, both, KeyIn(id, city, statuses));
  }

  /**
   * Folding the grouped rows gives what per-(master, city) queries over the
   * raw orders give: the number of orders 'Готово' or 'Отказ', and the clean
   * and master-change sums of the 'Готово' ones.
   */
  lemma MasterRowCountsOrders(m: Master, city: string, groups: seq<MasterGroup>, xs: seq<Order>)
    requires GroupsOrders(groups, xs)
    ensures MasterCityRow(m, city, groups).totalOrders == CountIf(xs, RawIn(m.id, city, [Done, Refused]))
    ensures MasterCityRow(m, city, groups).turnover == SumIf(xs, RawIn(m.id, city, [Done]), CleanOrZero)
    ensures MasterCityRow(m, city, groups).salary == SumIf(xs, RawIn(m.id, city, [Done]), MasterChangeOrZero)
  {
    RowFold(groups, xs, m.id, city, [Done, Refused], GroupCount, One);
    CountIsSumOfOnes(xs, RawIn(m.id, city, [Done, Refused]), One);
    RowFold(groups, xs, m.id, city, [Done], GroupClean, CleanOrZero);
    RowFold(groups, xs, m.id, city, [Done], GroupMasterChange, MasterChangeOrZero);
  }
}
