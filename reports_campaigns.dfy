/**
 * The campaigns report: the orders 'Готово' or 'Отказ' grouped by
 * (city, rk, avitoName), then bucketed by city into a `Map` whose entries
 * become the report, one entry per city in order of first appearance.
 */
module ReportsCampaigns {
  import opened Wrappers
  import opened Records
  import opened Folds
  import opened Grouping
  import opened JsMap
  import opened QueryFilter
  import opened ReportsService

  /** A grouped row: its key, `_count.id`, `_sum.clean` and `_sum.masterChange`. */
  datatype CampaignGroup = CampaignGroup(
    city: string,
    rk: string,
    avitoName: Option<string>,
    count: nat,
    sumClean: Option<int>,
    sumMasterChange: Option<int>)

  datatype Campaign = Campaign(rk: string, avitoName: Option<string>, ordersCount: int, revenue: int, profit: int)

  datatype CityCampaigns = CityCampaigns(city: string, campaigns: seq<Campaign>)

  // ------------------------------------------------------------ the query

  /** The orders the grouped query reads. */
  predicate CampaignsSelects(q: ReportsQuery, user: Option<User>, o: Order)
  {
    WithinDates(q.startDate, q.endDate, o.closingData)
    && (q.city.Some? ==> o.city == q.city.value)
    && (IsScopedDirector(user) && q.city.None? ==> o.city in DirectorCities(user))
    && o.statusOrder in [Done, Refused]
  }

  /**
   * `orderWhere` with `closingData`, the requested city or else a director's
   * cities, then `{ ...orderWhere, statusOrder: { in: ['Готово', 'Отказ'] } }`.
   */
  method BuildCampaignsWhere(q: ReportsQuery, user: Option<User>) returns (w: OrderWhere)
    ensures forall o :: OrderMatches(w, o) <==> CampaignsSelects(q, user, o)
  {
    var closing := BuildDateBounds(q.startDate, q.endDate);
    w := AllOrders.(closingData := closing);
    if q.city.Some? {
      w := w.(city := TextIs(q.city.value));
    }
    if IsScopedDirector(user) && q.city.None? {
      w := w.(city := TextIn(DirectorCities(user)));
    }
    w := w.(statusOrder := TextIn([Done, Refused]));
  }

  // ------------------------------------------------------ the bucketing

  /** The entry pushed for a grouped row: null sums read as 0. */
  function CampaignOf(g: CampaignGroup): Campaign
  {
    Campaign(g.rk, g.avitoName, g.count, OrZero(g.sumClean), OrZero(g.sumMasterChange))
  }

  /** The cities of the grouped rows, in row order. */
  function CitiesOf(gs: seq<CampaignGroup>): (cs: seq<string>)
    ensures |cs| == |gs|
  {
    if gs == [] then [] else CitiesOf(gs[..|gs| - 1]) + [gs[|gs| - 1].city]
  }

  /** The entries of the rows of one city, in row order. */
  function BucketOf(gs: seq<CampaignGroup>, city: string): seq<Campaign>
  {
    if gs == [] then []
    else
      var g := gs[|gs| - 1];
      BucketOf(gs[..|gs| - 1], city) + (if g.city == city then [CampaignOf(g)] else [])
  }

  function OrdersCount(c: Campaign): int { c.ordersCount }
  function BucketCount(b: seq<Campaign>): int { Sum(b, OrdersCount) }
  function BucketSize(b: seq<Campaign>): int { |b| }
  function GroupCount(g: CampaignGroup): int { g.count }

  function CityIs(city: string): CampaignGroup -> bool
  {
    (g: CampaignGroup) => g.city == city
  }

  /** A bucket holds one entry per row of its city. */
  lemma {:induction false} BucketOfCount(gs: seq<CampaignGroup>, city: string)
    ensures |BucketOf(gs, city)| == CountIf(gs, CityIs(city))
  {
    if gs != [] {
      var init := gs[..|gs| - 1];
      assert gs == init + [gs[|gs| - 1]];
      BucketOfCount(init, city);
      CountIfAppend(init, [gs[|gs| - 1]], CityIs(city));
    }
  }

  /** Every entry of a bucket comes from a row of that city. */
  lemma {:induction false} BucketOfMember(gs: seq<CampaignGroup>, city: string, c: Campaign)
    requires c in BucketOf(gs, city)
    ensures exists g :: g in gs && g.city == city && CampaignOf(g) == c
  {
    var init := gs[..|gs| - 1];
    var g := gs[|gs| - 1];
    if c in BucketOf(init, city) {
      BucketOfMember(init, city, c);
      var h :| h in init && h.city == city && CampaignOf(h) == c;
      assert h in gs;
    } else {
      assert g in gs;
    }
  }

  lemma {:induction false} BucketOfAbsent(gs: seq<CampaignGroup>, city: string)
    requires city !in CitiesOf(gs)
    ensures BucketOf(gs, city) == []
  {
    if gs != [] {
      var init := gs[..|gs| - 1];
      assert CitiesOf(gs) == CitiesOf(init) + [gs[|gs| - 1].city];
      BucketOfAbsent(init, city);
    }
  }

  /** `m` is the bucketing of the rows `gs`. */
  ghost predicate BucketsOf(m: seq<Entry<string, seq<Campaign>>>, gs: seq<CampaignGroup>)
  {
    Keys(m) == Dedup(CitiesOf(gs))
    && UniqueKeys(m)
    && (forall k {:trigger Get(m, k)} :: k in Keys(m) ==> Get(m, k) == Some(BucketOf(gs, k)))
    && SumValues(m, BucketSize) == |gs|
    && SumValues(m, BucketCount) == Sum(gs, GroupCount)
  }

  lemma BucketOfSnoc(gs: seq<CampaignGroup>, g: CampaignGroup, city: string)
    ensures BucketOf(gs + [g], city) == BucketOf(gs, city) + (if g.city == city then [CampaignOf(g)] else [])
  {
    assert (gs + [g])[..|gs|] == gs;
  }

  /** The bucketing of `gs` once the bucket of the next row's city `c` exists. */
  ghost predicate Opened(m: seq<Entry<string, seq<Campaign>>>, gs: seq<CampaignGroup>, c: string)
  {
    Keys(m) == Dedup(CitiesOf(gs) + [c])
    && c in Keys(m)
    && UniqueKeys(m)
    && (forall k {:trigger Get(m, k)} :: k in Keys(m) ==> Get(m, k) == Some(BucketOf(gs, k)))
    && SumValues(m, BucketSize) == |gs|
    && SumValues(m, BucketCount) == Sum(gs, GroupCount)
  }

  lemma OpenExisting(m: seq<Entry<string, seq<Campaign>>>, gs: seq<CampaignGroup>, c: string)
    requires BucketsOf(m, gs) && c in Keys(m)
    ensures Opened(m, gs, c)
  {
    DedupStep(CitiesOf(gs), c);
  }

  lemma OpenNew(m: seq<Entry<string, seq<Campaign>>>, gs: seq<CampaignGroup>, c: string)
    requires BucketsOf(m, gs) && c !in Keys(m)
    ensures Opened(Set(m, c, []), gs, c)
  {
    var m1 := Set(m, c, []);
    SetKeys(m, c, []);
    SetGet(m, c, []);
    DedupStep(CitiesOf(gs), c);
    DedupMember(CitiesOf(gs), c);
    BucketOfAbsent(gs, c);
    SetNewKeySum(m, c, [], BucketSize);
    SetNewKeySum(m, c, [], BucketCount);
    forall k | k in Keys(m1)
      ensures Get(m1, k) == Some(BucketOf(gs, k))
    {
      if k != c {
        SetGetOther(m, c, [], k);
      }
    }
    UniqueFromDedup(m1, CitiesOf(gs) + [c]);
  }

  lemma PushEntry(m: seq<Entry<string, seq<Campaign>>>, gs: seq<CampaignGroup>, g: CampaignGroup)
    requires Opened(m, gs, g.city)
    ensures BucketsOf(Set(m, g.city, Get(m, g.city).value + [CampaignOf(g)]), gs + [g])
  {
    var v := Get(m, g.city).value + [CampaignOf(g)];
    PushKeys(m, gs, g);
    PushGets(m, gs, g);
    PushSums(m, gs, g);
    SetKeepsDistinct(m, g.city, v);
  }

  lemma PushKeys(m: seq<Entry<string, seq<Campaign>>>, gs: seq<CampaignGroup>, g: CampaignGroup)
    requires Keys(m) == Dedup(CitiesOf(gs) + [g.city]) && g.city in Keys(m)
    ensures Keys(Set(m, g.city, Get(m, g.city).value + [CampaignOf(g)])) == Dedup(CitiesOf(gs + [g]))
  {
    SetKeys(m, g.city, Get(m, g.city).value + [CampaignOf(g)]);
    assert (gs + [g])[..|gs|] == gs;
  }

  lemma PushGets(m: seq<Entry<string, seq<Campaign>>>, gs: seq<CampaignGroup>, g: CampaignGroup)
    requires g.city in Keys(m)
    requires forall k {:trigger Get(m, k)} :: k in Keys(m) ==> Get(m, k) == Some(BucketOf(gs, k))
    ensures var m2 := Set(m, g.city, Get(m, g.city).value + [CampaignOf(g)]);
            forall k {:trigger Get(m2, k)} :: k in Keys(m2) ==> Get(m2, k) == Some(BucketOf(gs + [g], k))
  {
    var v := Get(m, g.city).value + [CampaignOf(g)];
    var m2 := Set(m, g.city, v);
    SetGet(m, g.city, v);
    forall k | k in Keys(m2)
      ensures Get(m2, k) == Some(BucketOf(gs + [g], k))
    {
      BucketOfSnoc(gs, g, k);
      if k != g.city {
        SetKeysMember(m, g.city, v, k);
        assert k in Keys(m);
        assert Get(m, k) == Some(BucketOf(gs, k));
        SetGetOther(m, g.city, v, k);
        assert Get(m2, k) == Get(m, k);
        assert BucketOf(gs + [g], k) == BucketOf(gs, k);
      } else {
        assert Get(m, k) == Some(BucketOf(gs, k));
        assert Get(m2, k) == Some(v);
        assert BucketOf(gs + [g], k) == BucketOf(gs, k) + [CampaignOf(g)];
      }
    }
  }

  lemma PushSums(m: seq<Entry<string, seq<Campaign>>>, gs: seq<CampaignGroup>, g: CampaignGroup)
    requires UniqueKeys(m) && g.city in Keys(m)
    requires SumValues(m, BucketSize) == |gs|
    requires SumValues(m, BucketCount) == Sum(gs, GroupCount)
    ensures var m2 := Set(m, g.city, Get(m, g.city).value + [CampaignOf(g)]);
            SumValues(m2, BucketSize) == |gs + [g]|
            && SumValues(m2, BucketCount) == Sum(gs + [g], GroupCount)
  {
    var bucket := Get(m, g.city).value;
    var v := bucket + [CampaignOf(g)];
    SetExistingSum(m, g.city, v, BucketSize);
    SetExistingSum(m, g.city, v, BucketCount);
    SumAppend(bucket, [CampaignOf(g)], OrdersCount);
    SumAppend(gs, [g], GroupCount);
  }

  /** One step of the `forEach`: open the city's bucket when it is new, then push the row's entry. */
  function Push(m: seq<Entry<string, seq<Campaign>>>, g: CampaignGroup): seq<Entry<string, seq<Campaign>>>
  {
    var m1 := if g.city !in Keys(m) then Set(m, g.city, []) else m;
    SetKeysMember(m, g.city, [], g.city);
    Set(m1, g.city, Get(m1, g.city).value + [CampaignOf(g)])
  }

  lemma PushStep(m: seq<Entry<string, seq<Campaign>>>, gs: seq<CampaignGroup>, i: nat)
    requires i < |gs| && BucketsOf(m, gs[..i])
    ensures BucketsOf(Push(m, gs[i]), gs[..i + 1])
  {
    var g := gs[i];
    assert gs[..i + 1] == gs[..i] + [g];
    if g.city !in Keys(m) {
      OpenNew(m, gs[..i], g.city);
      PushEntry(Set(m, g.city, []), gs[..i], g);
    } else {
      OpenExisting(m, gs[..i], g.city);
      PushEntry(m, gs[..i], g);
    }
  }

  /**
   * The `forEach` over the grouped rows: a city seen for the first time gets
   * an empty bucket, then the row's entry is pushed onto its city's bucket.
   */
  method BucketByCity(gs: seq<CampaignGroup>) returns (m: seq<Entry<string, seq<Campaign>>>)
    ensures Keys(m) == Dedup(CitiesOf(gs))
    ensures UniqueKeys(m)
    ensures forall k {:trigger Get(m, k)} :: k in Keys(m) ==> Get(m, k) == Some(BucketOf(gs, k))
    ensures SumValues(m, BucketSize) == |gs|
    ensures SumValues(m, BucketCount) == Sum(gs, GroupCount)
  {
    m := [];
    var i := 0;
    while i < |gs|
      invariant 0 <= i <= |gs|
      invariant BucketsOf(m, gs[..i])
    {
      var g := gs[i];
      ghost var before := m;
      SetKeysMember(m, g.city, [], g.city);
      if g.city !in Keys(m) {
        m := Set(m, g.city, []);
      }
      var bucket := Get(m, g.city).value;
      m := Set(m, g.city, bucket + [CampaignOf(g)]);
      PushStep(before, gs, i);
      i := i + 1;
    }
    assert gs[..i] == gs;
  }

  /**
   * `getCampaignsReport`: nothing for a director asking for a city outside
   * their list; otherwise one entry per city of the grouped rows, in order
   * of first appearance, holding that city's campaigns in row order.
   */
  method GetCampaignsReport(q: ReportsQuery, user: Option<User>, campaigns: seq<CampaignGroup>)
    returns (data: seq<CityCampaigns>)
    ensures q.city.Some? && !CityAllowed(user, q.city.value) ==> data == []
    ensures !(q.city.Some? && !CityAllowed(user, q.city.value)) ==>
              |data| == |Dedup(CitiesOf(campaigns))|
              && forall i :: 0 <= i < |data| ==>
                   data[i] == CityCampaigns(Dedup(CitiesOf(campaigns))[i], BucketOf(campaigns, Dedup(CitiesOf(campaigns))[i]))
  {
    if q.city.Some? && IsScopedDirector(user) && q.city.value !in DirectorCities(user) {
      return [];
    }
    var citiesMap := BucketByCity(campaigns);
    data := seq(|citiesMap|, i requires 0 <= i < |citiesMap| => CityCampaigns(citiesMap[i].key, citiesMap[i].value));
    forall i | 0 <= i < |data|
      ensures data[i] == CityCampaigns(Dedup(CitiesOf(campaigns))[i], BucketOf(campaigns, Dedup(CitiesOf(campaigns))[i]))
    {
      KeysAt(citiesMap, i);
      GetAt(citiesMap, i);
    }
  }

  // ------------------------------------------ the grouped rows and the raw

  function GroupKey(g: CampaignGroup): (string, string, Option<string>) { (g.city, g.rk, g.avitoName) }
  function OrderKey(o: Order): (string, string, Option<string>) { (o.city, o.rk, o.avitoName) }
  function One(o: Order): int { 1 }

  function AnyKey(): ((string, string, Option<string>)) -> bool
  {
    (k: (string, string, Option<string>)) => true
  }

  /**
   * When the grouped rows are the grouping of the raw rows `xs`, the
   * campaigns' order counts add up to the number of raw rows.
   */
  lemma CampaignTotalIsOrderCount(gs: seq<CampaignGroup>, xs: seq<Order>)
    requires DistinctKeys(gs, GroupKey) && Covers(xs, OrderKey, gs, GroupKey)
    requires AggregatesBy(xs, OrderKey, One, gs, GroupKey, GroupCount)
    ensures Sum(gs, GroupCount) == |xs|
  {
    GroupedSum(xs, OrderKey, One, gs, GroupKey, GroupCount, AnyKey());
    SumKeyIfAsSumIf(xs, OrderKey, AnyKey(), All(), One);
    SumKeyIfAsSumIf(gs, GroupKey, AnyKey(), All(), GroupCount);
    SumIfAll(gs, All(), GroupCount);
    CountIsSumOfOnes(xs, All(), One);
    CountIfAll(xs, All());
  }
}
