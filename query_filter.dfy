/**
 * The `where` objects the services hand to the database, and what it means for
 * a row to match one.
 *
 * The services build them field by field: a date column gets a range object
 * `{ gte?, lte? }` only when a start or an end date is given, each side set on
 * its own; other fields are set only when the query carries them. A later
 * spread such as `{ ...where, statusOrder: 'Закрыт' }` replaces one field.
 */
module QueryFilter {
  import opened Wrappers
  import opened Records

  /** The `{ gte?, lte? }` range on one date column. */
  datatype DateBounds = DateBounds(gte: Option<Instant>, lte: Option<Instant>)

  /**
   * A column passes a range when it is non-null and inside the sides that are
   * set. Without a range every row passes, a null column included.
   */
  predicate InRange(b: Option<DateBounds>, t: Option<Instant>)
  {
    match b
    case None => true
    case Some(r) =>
      t.Some? && (r.gte.None? || r.gte.value <= t.value) && (r.lte.None? || t.value <= r.lte.value)
  }

  /** What a query's optional start and end dates ask of a date column. */
  predicate WithinDates(startDate: Option<Instant>, endDate: Option<Instant>, t: Option<Instant>)
  {
    (startDate.None? && endDate.None?)
    || (t.Some? && (startDate.None? || startDate.value <= t.value) && (endDate.None? || t.value <= endDate.value))
  }

  /**
   * `if (startDate || endDate) { w.col = {}; if (startDate) w.col.gte = …; if (endDate) w.col.lte = … }`
   */
  method BuildDateBounds(startDate: Option<Instant>, endDate: Option<Instant>) returns (b: Option<DateBounds>)
    ensures b.None? <==> startDate.None? && endDate.None?
    ensures b.Some? ==> b.value.gte == startDate && b.value.lte == endDate
    ensures forall t :: InRange(b, t) <==> WithinDates(startDate, endDate, t)
  {
    b := None;
    if startDate.Some? || endDate.Some? {
      var range := DateBounds(None, None);
      if startDate.Some? {
        range := range.(gte := startDate);
      }
      if endDate.Some? {
        range := range.(lte := endDate);
      }
      b := Some(range);
    }
  }

  /** A filter on a text column: absent, `col: s`, or `col: { in: ss }`. */
  datatype TextFilter = AnyText | TextIs(s: string) | TextIn(ss: seq<string>)

  predicate TextOk(f: TextFilter, s: string)
  {
    match f
    case AnyText => true
    case TextIs(v) => s == v
    case TextIn(vs) => s in vs
  }

  /** A filter on a nullable id column: absent, `col: { not: null }`, or `col: id`. */
  datatype IdFilter = AnyId | IdNotNull | IdIs(id: int)

  predicate IdOk(f: IdFilter, x: Option<int>)
  {
    match f
    case AnyId => true
    case IdNotNull => x.Some?
    case IdIs(v) => x == Some(v)
  }

  datatype OrderWhere = OrderWhere(
    createDate: Option<DateBounds>,
    closingData: Option<DateBounds>,
    city: TextFilter,
    statusOrder: TextFilter,
    masterId: IdFilter,
    operatorNameId: IdFilter)

  /** `{}` */
  const AllOrders: OrderWhere := OrderWhere(None, None, AnyText, AnyText, AnyId, AnyId)

  predicate OrderMatches(w: OrderWhere, o: Order)
  {
    InRange(w.createDate, Some(o.createDate))
    && InRange(w.closingData, o.closingData)
    && TextOk(w.city, o.city)
    && TextOk(w.statusOrder, o.statusOrder)
    && IdOk(w.masterId, o.masterId)
    && IdOk(w.operatorNameId, o.operatorNameId)
  }

  function MatchOrder(w: OrderWhere): Order -> bool
  {
    o => OrderMatches(w, o)
  }

  datatype CallWhere = CallWhere(
    dateCreate: Option<DateBounds>,
    operatorId: Option<int>,
    status: TextFilter)

  const AllCalls: CallWhere := CallWhere(None, None, AnyText)

  predicate CallMatches(w: CallWhere, c: Call)
  {
    InRange(w.dateCreate, Some(c.dateCreate))
    && (w.operatorId.None? || c.operatorId == w.operatorId.value)
    && TextOk(w.status, c.status)
  }

  function MatchCall(w: CallWhere): Call -> bool
  {
    c => CallMatches(w, c)
  }

  datatype CashWhere = CashWhere(
    createdAt: Option<DateBounds>,
    date: Option<DateBounds>,
    name: TextFilter)

  predicate CashMatches(w: CashWhere, t: CashEntry)
  {
    InRange(w.createdAt, Some(t.createdAt))
    && InRange(w.date, Some(t.date))
    && TextOk(w.name, t.name)
  }

  function MatchCash(w: CashWhere): CashEntry -> bool
  {
    t => CashMatches(w, t)
  }
}
