/**
 * Rows of the three entity streams the reports read (orders, calls, cash
 * transactions), the reference entities they report on, the authenticated
 * user, and the status vocabularies the reports compare against.
 *
 * Money columns are integers, instants are milliseconds since the epoch, and a
 * nullable column is an `Option`.
 */
module Records {
  import opened Wrappers

  type Instant = int

  const MsPerSecond: int := 1000
  const MsPerHour: int := 3600000
  const MsPerDay: int := 86400000

  // Order statuses of the reports and master statistics.
  const Done: string := "Готово"
  const Refused: string := "Отказ"
  const NonOrder: string := "Незаказ"
  const Modern: string := "Модерн"
  // Order statuses of the analytics.
  const Closed: string := "Закрыт"
  const Cancelled: string := "Отменен"
  const InWork: string := "В работе"
  const MasterAssigned: string := "Назначен мастер"
  const MasterOnTheWay: string := "Мастер выехал"

  // Call statuses.
  const Answered: string := "answered"
  const Missed: string := "missed"
  const NoAnswer: string := "no_answer"
  const Busy: string := "busy"

  // Cash transaction names.
  const Income: string := "приход"
  const Expense: string := "расход"

  /** Placeholder for a missing city, campaign or operator name. */
  const Unspecified: string := "Не указан"
  /** `statusWork` of an operator on shift. */
  const Working: string := "работает"

  datatype Order = Order(
    id: int,
    operatorNameId: Option<int>,
    masterId: Option<int>,
    city: string,
    rk: string,
    avitoName: Option<string>,
    statusOrder: string,
    createDate: Instant,
    closingData: Option<Instant>,
    dateMeeting: Option<Instant>,
    result: Option<int>,
    clean: Option<int>,
    masterChange: Option<int>,
    expenditure: Option<int>,
    partner: Option<bool>)

  datatype Call = Call(
    id: int,
    operatorId: int,
    status: string,
    duration: Option<int>,
    dateCreate: Instant,
    city: Option<string>,
    rk: Option<string>)

  datatype CashEntry = CashEntry(
    id: int,
    city: string,
    name: string,
    amount: int,
    createdAt: Instant,
    date: Instant)

  datatype Operator = Operator(id: int, name: string, login: string, statusWork: string)

  datatype Master = Master(id: int, name: string, cities: seq<string>)

  /** The claims of a verified token. `cities` is present for directors. */
  datatype User = User(userId: Option<int>, login: string, role: string, cities: Option<seq<string>>)

  const Director: string := "director"

  /** `user?.role === 'director' && user?.cities`: the reports scope such a user to their cities. */
  predicate IsScopedDirector(user: Option<User>)
  {
    user.Some? && user.value.role == Director && user.value.cities.Some?
  }

  function DirectorCities(user: Option<User>): seq<string>
  {
    if IsScopedDirector(user) then user.value.cities.value else []
  }

  /** A city a user may see: every city for a non-director, a listed city for a director. */
  predicate CityAllowed(user: Option<User>, city: string)
  {
    !IsScopedDirector(user) || city in DirectorCities(user)
  }

  /** The per-row value a `_count` aggregate adds up. */
  function OneCall(c: Call): int { 1 }
  function OneOrder(o: Order): int { 1 }

  /** `value || 0` on a nullable number. */
  function OrZero(x: Option<int>): int
  {
    x.GetOr(0)
  }
}
