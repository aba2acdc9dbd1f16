# Reports service: a verified model of its reduction layer

The system is a NestJS backend. It serves order, finance, call, city, campaign
and master reports, operator statistics and analytics dashboards for a
call-centre and field-service business. Every report reads rows from the
database, often through grouping queries (`groupBy` with `_count`, `_sum`,
`_max` columns). It folds them in memory into named metrics: counts per
status bucket, "null counts as 0" sums, guarded ratios rounded with
`Math.round`, per-city buckets and sorted lists. Around the reports sit
small rules:
- the 365-day date-range check;
- the role guard;
- the audit-path test;
- the global exception-to-response mapping;
- the cookie name and token-header selection of the JWT guard;
- the Excel, phone and masking sanitizers;
- the connection-URL tuning and slow-query classification of the database service.

This Dafny project models that layer, and proves its results in terms of
the raw rows:

- **Grouping queries are inputs.** A grouped result is an input sequence of
  rows. The ghost predicate `Grouping.IsGrouping` ties it to the raw rows it
  groups: distinct keys, every raw key present, and each aggregate equal to
  the raw sum for its key. `Grouping.GroupedCountOfFilter` and
  `Grouping.GroupedFilterSum` then say that a fold over grouped rows equals
  the direct filter-count over the raw rows. The three generations of the
  reports rest on this identity: the legacy per-entity analytics, the
  grouped rewrite, and the reports and statistics services.
- **Plain `count`/`aggregate` queries are spec functions.** They are
  `Folds.CountIf` and `Folds.SumIf` over the raw rows selected by a `where`
  predicate. Each `where` object is built field by field, as the source
  does, by a method. Its contract says exactly which rows it matches.
- **JavaScript `Map`s and object accumulators are association lists.**
  `JsMap.Set` replaces in place or appends, so insertion order is kept. The
  loops that fill them are methods with invariants, proved against the
  functions that specify them.
- **Numbers.** Ratios are reals. Money and counts are integers. `Math.round`
  is `Numeric.Round`, `floor(x + 1/2)`. Instants are integer milliseconds.
  Day keys (`toISOString().split('T')[0]`) are UTC day numbers, which
  compare the way the ISO date strings do.
- **External calls are parameters.** The clock (`now`), the local time-zone
  offset, DOMPurify and `unsignCookie` are parameters.

Module layout:
- Library: `Wrappers`, `Numeric`, `Folds`, `Grouping`, `JsMap`, `GroupedMaps`,
  `Sorting`, `Strings`, `JsValue`, `Calendar`, `Records` (the rows), `QueryFilter`
  (the `where` objects).
- Reports service: `ReportsService`, `ReportsMasters`, `ReportsCity`, `ReportsCampaigns`.
- Analytics: `AnalyticsMetrics` (the shared output records and formulas),
  `AnalyticsOptimized` (the grouped service), `AnalyticsLegacy` (the
  per-entity service), `AnalyticsCommon` (daily metrics and dashboard,
  written identically in both services), `AnalyticsEquivalence` (the
  lemmas relating the two services).
- Statistics: `StatsService`.
- Small rules: `DateRange`, `RolesGuard`, `AuditLog`, `ExceptionFilter`,
  `CookieConfig`, `CookieJwtGuard`, `Sanitizer`, `PrismaService`.

The date-range check compares only `|end - start|` with 365 days, so a
reversed range passes (`DateRange.ValidateSymmetric`).

## Model

| member | source | states |
|---|---|---|
| Numeric.Round | src/analytics/analytics.service.optimized.ts:122 | `Math.round(x)` is the integer r with r − 1/2 ≤ x < r + 1/2, so halves round up |
| Numeric.Round2 | src/analytics/analytics.service.optimized.ts:123 | `Math.round(x * 100) / 100` is a whole number of hundredths within (x − 0.005, x + 0.005], the nearest one with halves up |
| Numeric.Round2Unique | src/analytics/analytics.service.optimized.ts:123 | a whole number of hundredths within (x − 0.005, x + 0.005] is Round2(x), so the contract pins the rounding |
| Numeric.Round1 | src/analytics/analytics.service.optimized.ts:633-634 | `Math.round(x * 10) / 10` is a whole number of tenths within (x − 0.05, x + 0.05], the nearest one with halves up |
| Numeric.Round1Unique | src/analytics/analytics.service.optimized.ts:633-634 | a whole number of tenths within (x − 0.05, x + 0.05] is Round1(x) |
| Numeric.Round2Percent | src/analytics/analytics.service.optimized.ts:123 | rounding a percentage to two places keeps it in [0, 100] |
| Numeric.RoundPercent | src/stats/stats.service.ts:160 | rounding a percentage to an integer keeps it in [0, 100] |
| Numeric.Ratio | src/analytics/analytics.service.optimized.ts:130 | a guarded quotient: 0 for a non-positive denominator, else the exact quotient |
| Numeric.Percent | src/analytics/analytics.service.optimized.ts:111-112 | `d > 0 ? n / d * 100 : 0`, exact, and within [0, 100] when 0 ≤ n ≤ d |
| Numeric.RoundedMean | src/analytics/analytics.service.optimized.ts:130 | `completed > 0 ? Math.round(total / completed) : 0`: 0 without a divisor, else the mean rounded to the nearest integer |
| Numeric.Mean | src/analytics/analytics.service.optimized.ts:593-608 | the mean of a sample, 0 for an empty one |
| Numeric.MeanNonNegative | src/analytics/analytics.service.ts:508-535 | the mean of non-negative samples is non-negative |
| Grouping.GroupedSum | src/analytics/analytics.service.optimized.ts:10-14 | summing grouped aggregates over the keys a predicate selects equals summing the raw rows with those keys |
| Grouping.GroupedFilterSum | src/analytics/analytics.service.optimized.ts:10-14 | a filtered sum over grouped rows equals the filtered sum over the raw rows when both filters test the key alike |
| Grouping.GroupedCountOfFilter | src/stats/stats.service.ts:50-63 | the `_count` of the groups whose key satisfies a predicate adds up to the number of selected raw rows with such a key |
| Grouping.GroupedSumOfFilter | src/analytics/analytics.service.optimized.ts:64-68 | the same for a `_sum` aggregate |
| JsMap.Get | src/analytics/analytics.service.optimized.ts:99-101 | `map.get(k)` is absent exactly when k is not a key, and otherwise the value stored under k |
| JsMap.GetFound | src/analytics/analytics.service.optimized.ts:99-101 | a value `map.get(k)` returns is one stored under k in some entry |
| JsMap.SetKeys | src/analytics/analytics.service.optimized.ts:80 | `map.set(k, v)` keeps the keys and their order, appending k at the end when it is new |
| JsMap.SetGet | src/analytics/analytics.service.optimized.ts:80 | after `map.set(k, v)`, `get(k)` gives v |
| JsMap.SetGetOther | src/analytics/analytics.service.optimized.ts:80 | setting one key leaves every other key's value unchanged |
| JsMap.SetKeepsDistinct | src/analytics/analytics.service.optimized.ts:80 | setting a key keeps the keys distinct |
| JsMap.SetTwice | src/analytics/analytics.service.optimized.ts:196-198 | setting a key twice is setting it to the last value |
| GroupedMaps.FillFlat | src/analytics/analytics.service.optimized.ts:195-198 | the `forEach(stat => map.set(key, value))` loop builds the table `FlatOf` |
| GroupedMaps.FlatLookup | src/analytics/analytics.service.optimized.ts:109 | over grouped rows with distinct keys, a flat-table lookup defaulting to 0 is the aggregate of the row with that key, or 0 |
| GroupedMaps.FlatTotal | src/analytics/analytics.service.optimized.ts:575-581 | summing the values of a flat table sums the grouped rows |
| GroupedMaps.FillNested | src/analytics/analytics.service.optimized.ts:76-91 | the nested loop (create the inner map when missing, then set) builds the table of tables `NestedOf` |
| GroupedMaps.NestedLookup | src/analytics/analytics.service.optimized.ts:104-105 | the nested lookup `outer.get(a)?.get(b)`, defaulting to 0, is the aggregate of the group keyed (a, b), or 0 |
| GroupedMaps.NestedTotal | src/analytics/analytics.service.optimized.ts:103 | the values of the inner map for a add up to the aggregates of all groups whose first key is a |
| Sorting.SortDesc | src/analytics/analytics.service.optimized.ts:229 | `sort((a, b) => key(b) - key(a))` returns a permutation sorted by descending key |
| Sorting.Take | src/reports/reports.service.ts:28 | `take: n` keeps the first min(n, length) rows |
| Sorting.TakeKeepsLargest | src/reports/reports.service.ts:27-28 | taking the first n of a descending list keeps rows whose key is at least that of every row dropped |
| Sorting.TakeLeavesSmaller | src/reports/reports.service.ts:27-28 | the first n of a descending list are a sub-multiset of it, and every element left out has a key at most that of every one kept |
| Strings.Split | src/config/cookie.config.ts:69 | `split` gives at least one part, the first no longer than the input, and no part contains the separator |
| Strings.JoinSplit | src/config/cookie.config.ts:69 | joining the parts of a split with its separator gives back the input |
| Strings.SplitCount | src/config/cookie.config.ts:70 | a split has two or more parts exactly when the separator occurs |
| JsValue.Or | src/common/filters/global-exception.filter.ts:31 | JavaScript `or` on two values: a when a is truthy, else b; it is truthy exactly when a or b is, and is always one of the two |
| QueryFilter.BuildDateBounds | src/reports/reports.service.ts:14-18 | the date bound object exists only when a start or an end is given; gte and lte are set independently; it matches exactly the instants within the given dates |
| Calendar.MonthWindowSpan | src/stats/stats.service.ts:318-319 | the current-month window starts at local midnight of the 1st, spans exactly the month's days, and ends 1 ms before the next month's window starts |
| Calendar.MonthWindowDays | src/stats/stats.service.ts:318-319 | an instant lies in the month window exactly when its local day is one of the month's days |
| Calendar.MakeDayLastOfMonth | src/stats/stats.service.ts:319 | day 0 of the next month is the last day of this month, also across New Year |
| Calendar.LeapFebruary | src/stats/stats.service.ts:318-319 | at UTC, February 2024 runs from day 19754 to day 19782 |
| Calendar.DecemberIntoJanuary | src/stats/stats.service.ts:318-319 | three hours ahead of UTC, December 2023's window ends where January 2024's begins |
| ReportsService.BuildOrdersWhere | src/reports/reports.service.ts:12-22 | the orders `where` matches exactly the orders of the query's dates, city, status and master; replacing its status by 'Закрыт' asks the same of the query with that status |
| ReportsService.GetOrdersReport | src/reports/reports.service.ts:9-52 | at most 1000 selected orders, newest first, each kept no more often than it occurs among the selected; every selected order left out is no newer than any kept one; totalCount, completedCount ('Закрыт') and totalRevenue are counts and sums over all selected orders; avgRevenue is the guarded rounded mean |
| ReportsService.KeptNewest | src/reports/reports.service.ts:25-29 | the first 1000 of the selected orders sorted newest first are a sub-multiset of them, and every one left out is no newer than any one kept |
| ReportsService.CompletedWithinTotal | src/reports/reports.service.ts:31-36 | without a status filter, or filtering 'Закрыт', the completed count never exceeds the total count |
| ReportsService.StatusFilterReplaced | src/reports/reports.service.ts:31-36 | the completed count replaces a requested status: a query for 'Готово' counts a 'Закрыт' order as completed but not in the total |
| ReportsService.TallyByName | src/reports/reports.service.ts:175-187 | the byName loop adds each transaction's amount to the income or the expense bucket by its name |
| ReportsService.BuildFinanceWhere | src/reports/reports.service.ts:156-161 | the finance `where` matches exactly the cash entries whose createdAt lies within the query's dates |
| ReportsService.GetFinanceReport | src/reports/reports.service.ts:153-200 | the transactions are the selected entries, newest first; total is the sum of their amounts; income and expense are the by-name sums |
| ReportsService.FinanceTotalSplit | src/reports/reports.service.ts:175-192 | total = income + expense + the amounts of entries with any other name |
| ReportsService.BuildCallsWhere | src/reports/reports.service.ts:202-211 | the calls `where` matches exactly the calls within the query's dates and, when given, of its operator, with no status filter |
| ReportsService.GetCallsReport | src/reports/reports.service.ts:202-233 | total, answered and missed are counts over the selected calls; avgDuration is the rounded mean duration; answerRate is `RoundedRate(answered, total)`, the nearest whole percentage, in [0, 100] and 0 without calls |
| ReportsService.BuildCityDetailWhere | src/reports/reports.service.ts:512-520 | the detailed-report `where` matches exactly the orders of the city whose createDate lies within the query's dates |
| ReportsService.GetCityDetailedReport | src/reports/reports.service.ts:509-536 | the report is the city's selected orders, newest first |
| ReportsService.FindMaster | src/reports/reports.service.ts:549-556 | `findUnique` finds a master with the id, and finds none exactly when no master has it |
| ReportsService.CityStatisticsOf | src/reports/reports.service.ts:573-607 | per city, closed and modern counts and the clean and master-change sums are filter-counts over the master's orders; averageCheck is turnover over closed orders, or 0 |
| ReportsService.MasterStatistics | src/reports/reports.service.ts:538-613 | a missing master id fails before the lookup; an unknown master fails next; otherwise there is one statistics row per master city, in order |
| ReportsMasters.BuildMastersStatsWhere | src/reports/reports.service.ts:64-93 | the masters-report `where` matches exactly the orders closed within the query's dates that have a master and, when a masterId is requested, that master |
| ReportsMasters.SelectMasters | src/reports/reports.service.ts:73-84 | the masters queried are the roster members that pass the director's city scope and the requested master id |
| ReportsMasters.MasterCityRow | src/reports/reports.service.ts:109-139 | a master-city row carries the master and city; avgCheck is turnover over totalOrders, or 0 when totalOrders is 0 |
| ReportsMasters.PairsMember | src/reports/reports.service.ts:101-106 | a (master, city) pair is visited exactly when the city is one of the master's cities and a director may see it |
| ReportsMasters.PairsCountUnrestricted | src/reports/reports.service.ts:101-106 | for anyone but a scoped director, the pairs number the masters' cities in total |
| ReportsMasters.AddMasterRows | src/reports/reports.service.ts:102-139 | the inner loop over one master's cities skips the cities a director may not see and pushes one row for each remaining city, in order, after the rows already built |
| ReportsMasters.BuildMasterRows | src/reports/reports.service.ts:99-141 | the nested loops push one row per visited pair, in master-then-city order |
| ReportsMasters.GetMastersReport | src/reports/reports.service.ts:60-151 | the report has one row per visited pair of the selected masters, each the fold of the grouped rows for that pair |
| ReportsMasters.MasterRowCountsOrders | src/reports/reports.service.ts:113-126 | over a grouping of the raw orders, totalOrders counts only 'Готово' and 'Отказ' orders; turnover and salary sum only 'Готово' ones, null as 0 |
| ReportsCity.TallyOf | src/reports/reports.service.ts:411-450 | per city, totalOrders = completed + notOrders; turnover = our + partner; zeroOrders counts the 'Готово' and 'Отказ' rows with sum 0; completedWithMoney counts the 'Готово' rows with sum > 0; both at most completed; maxCheck bounds every 'Готово' row's max and is one of them, or 0 |
| ReportsCity.CheckCountsOf | src/reports/reports.service.ts:406-454 | the micro and over-10k counts of the city's check row, or 0 when the city has none |
| ReportsCity.ModernCountOf | src/reports/reports.service.ts:407-457 | the modern count of the city's row, or 0 when the city has none |
| ReportsCity.CityRowOf | src/reports/reports.service.ts:403-498 | the city row: the tally identities; completedPercent in [0, 100] and 0 without completed orders; avgCheck is turnover over completed (Ratio), so avgCheck × completed is the turnover, or 0; maxCheck bounds every 'Готово' max of the city; refusals 0; cash income minus expense |
| ReportsCity.CityRowStatsCounts | src/reports/reports.service.ts:403-457 | the rest of the city row's stats: maxCheck is 0 or some 'Готово' row's max; zeroOrders counts the city's zero-check rows; completedPercent is 100 × completedWithMoney / completed (Percent); micro, over-10k and modern counts are those of the city's first row in each list, or 0 |
| ReportsCity.CityCountsPartition | src/reports/reports.service.ts:411-421 | the 'Готово'/'Отказ'/'Незаказ' rows split into completed plus notOrders |
| ReportsCity.CityTurnoverPartition | src/reports/reports.service.ts:432-442 | 'Готово' rows split by partner true versus false or null, so turnover = turnoverOur + turnoverPartner |
| ReportsCity.CityListAllowed | src/reports/reports.service.ts:290-309 | every listed city is one a director may see, and is the requested city when one is given |
| ReportsCity.GetCityReport | src/reports/reports.service.ts:269-507 | a requested city outside a director's list gives no rows; otherwise one row per listed city, in order; an empty city list gives none |
| ReportsCity.CityRowCountsOrders | src/reports/reports.service.ts:403-446 | over a grouping of the raw orders, a city's totalOrders, turnover and profit are filter-counts and sums over the raw orders |
| ReportsCampaigns.BuildCampaignsWhere | src/reports/reports.service.ts:627-647 | the campaigns `where` matches exactly the orders of the query's dates and city, restricted to a director's cities |
| ReportsCampaigns.BucketOfCount | src/reports/reports.service.ts:672-684 | a city's bucket holds one campaign per grouped row of that city |
| ReportsCampaigns.BucketOfMember | src/reports/reports.service.ts:672-684 | every campaign in a city's bucket comes from a grouped row of that city |
| ReportsCampaigns.BucketByCity | src/reports/reports.service.ts:664-684 | the bucketing loop keys the map by the cities in first-seen order, puts each grouped row in its own city's bucket, and keeps the number of rows and the total ordersCount |
| ReportsCampaigns.GetCampaignsReport | src/reports/reports.service.ts:621-699 | a requested city outside a director's list gives no rows; otherwise one entry per distinct city, first-seen order, with its bucket |
| ReportsCampaigns.CampaignTotalIsOrderCount | src/reports/reports.service.ts:650-661 | the campaign groups' counts add up to the number of raw orders grouped |
| AnalyticsCommon.BuildWindowWheres | src/analytics/analytics.service.ts:429-442 | the call `where` and the order `where` match exactly the calls and orders within the query's dates, and set nothing else |
| AnalyticsCommon.BuildDailyWhere | src/analytics/analytics.service.optimized.ts:327-350 | the daily `where` matches exactly the orders from the start (default: first of the month) to the end (default: now), in the city when one is given |
| AnalyticsCommon.CompletedWithinDay | src/analytics/analytics.service.optimized.ts:354-373 | a day's completed orders never exceed its total |
| AnalyticsCommon.BucketForNext | src/analytics/analytics.service.optimized.ts:354-373 | one more order raises its own day's total, and its completed count and revenue only when it is 'Закрыт'; other days are untouched |
| AnalyticsCommon.CountInto | src/analytics/analytics.service.optimized.ts:354-373 | one loop step opens the order's day when missing and counts the order into it |
| AnalyticsCommon.BuildDailyMap | src/analytics/analytics.service.optimized.ts:352-373 | the daily map has each day of an order once, in first-seen order, holds each day's bucket, and its totals add up to the number of orders |
| AnalyticsCommon.GetDailyMetrics | src/analytics/analytics.service.optimized.ts:327-383 | every listed day is that day's bucket of the selected orders, with at least one order and completed ≤ total; a day is listed exactly when a selected order falls on it; days ascend strictly; totals add up to the number of selected orders |
| AnalyticsCommon.DailyOccurs | src/analytics/analytics.service.optimized.ts:352-373 | every bucket of the daily map is the day of some order and counts at least one order |
| AnalyticsCommon.DailySum | src/analytics/analytics.service.ts:293-318 | the listed buckets' totals add up to the number of orders |
| AnalyticsCommon.DailyStrict | src/analytics/analytics.service.ts:316-318 | sorting the buckets by day lists the days strictly ascending |
| AnalyticsCommon.DailyCovers | src/analytics/analytics.service.ts:293-314 | every order's day has a listed bucket |
| AnalyticsCommon.PeriodStart | src/analytics/analytics.service.optimized.ts:392-402 | the period starts at today's midnight, seven days before now, or at the first of the month |
| AnalyticsCommon.DashboardOf | src/analytics/analytics.service.optimized.ts:388-482 | over the period from its start to now: order total, 'Закрыт', in-progress and revenue are filter-counts and sums; call total, answered and avgDuration likewise; activeOperators counts operators on shift; completion, answer and conversion rates are the rounded percentages, in [0, 100] and 0 without a denominator; avg revenue a guarded mean |
| AnalyticsCommon.DashboardBounds | src/analytics/analytics.service.optimized.ts:449-451 | the disjoint 'Закрыт' and in-progress filters fit in the period's orders, and answered calls in its calls |
| AnalyticsMetrics.OperatorRowOf | src/analytics/analytics.service.optimized.ts:103-132 | an operator row carries the counts; avgDuration rounded; answerRate = Round2(answered / total × 100) and conversionRate = Round2(orders / answered × 100), each 0 without its denominator; answerRate in [0, 100] when answered ≤ total; avgRevenue the guarded rounded mean |
| AnalyticsMetrics.PeriodCalls | src/analytics/analytics.service.optimized.ts:155-187 | the call totals of the period, shared by every city and campaign: all calls and answered calls within the dates |
| AnalyticsMetrics.EntityOrdersOf | src/analytics/analytics.service.optimized.ts:203-217 | completionRate = Round2(completed / total × 100), 0 without orders and in [0, 100] when completed ≤ total |
| AnalyticsMetrics.CityAnalyticsOf | src/analytics/analytics.service.optimized.ts:200-225 | a city entry: orders, revenue and its guarded rounded mean; conversionRate = Round2(orders / answered calls × 100), 0 without answered calls |
| AnalyticsMetrics.CampaignAnalyticsOf | src/analytics/analytics.service.optimized.ts:289-316 | a campaign entry: orders, revenue, its guarded mean and the rounded roi; conversionRate = Round2(orders / answered calls × 100), 0 without answered calls |
| AnalyticsMetrics.Samples | src/analytics/analytics.service.ts:508-535 | only rows with both timestamps give a sample, the hours between creation and the timestamp |
| AnalyticsMetrics.SamplesNonNegative | src/analytics/analytics.service.ts:508-521 | samples are non-negative when no timestamp precedes its creation |
| AnalyticsMetrics.SamplesAppend | src/analytics/analytics.service.ts:508-535 | samples of a concatenation are the concatenated samples |
| AnalyticsMetrics.PerformanceOf | src/analytics/analytics.service.optimized.ts:575-646 | the orders, calls, finance and conversion blocks are those of the four block functions; mean times are the means rounded to one place, 0 without samples |
| AnalyticsMetrics.PerformanceOrdersOf | src/analytics/analytics.service.optimized.ts:618-624 | completionRate and cancellationRate are the exact percentages of total orders, 0 without orders, adding up to at most 100 for disjoint counts |
| AnalyticsMetrics.PerformanceCallsOf | src/analytics/analytics.service.optimized.ts:625-631 | answerRate and missRate are the exact percentages of total calls, 0 without calls, adding up to at most 100 for disjoint counts |
| AnalyticsMetrics.PerformanceFinanceOf | src/analytics/analytics.service.optimized.ts:610-641 | profit = revenue − expenditure; profitMargin = Round2(profit / revenue × 100), 0 without revenue, 100 without expenditure |
| AnalyticsMetrics.PerformanceConversionOf | src/analytics/analytics.service.optimized.ts:642-645 | callToOrder is the exact percentage of orders per answered call, 0 without answered calls; orderToCompletion is the completion rate |
| AnalyticsMetrics.PercentSum | src/analytics/analytics.service.ts:550-558 | two disjoint parts of a total have percentages adding up to at most 100 |
| AnalyticsOptimized.BuildOperatorWheres | src/analytics/analytics.service.optimized.ts:16-33 | the two `where` objects match exactly the calls and orders within the dates and, when an operator id is given, of that operator |
| AnalyticsOptimized.GetOperatorStatistics | src/analytics/analytics.service.optimized.ts:15-139 | one row per listed operator, in roster order, each folded from the three grouped tables |
| AnalyticsOptimized.OperatorEntryCounts | src/analytics/analytics.service.optimized.ts:98-109 | an operator's total, answered, missed, orders, completed and revenue are the sums of the grouped rows of that operator (and status) |
| AnalyticsOptimized.OperatorEntryBounds | src/analytics/analytics.service.optimized.ts:103-112 | answered + missed ≤ total calls; answerRate in [0, 100]; completed ≤ total orders |
| AnalyticsOptimized.OperatorEntryNoGroups | src/analytics/analytics.service.optimized.ts:99-101 | an operator with no grouped rows gets all-zero calls, orders and revenue |
| AnalyticsOptimized.CityEntries | src/analytics/analytics.service.optimized.ts:200-225 | one city entry per grouped city row, in order |
| AnalyticsOptimized.GetCityAnalytics | src/analytics/analytics.service.optimized.ts:145-232 | the city entries sorted by descending orders.total |
| AnalyticsOptimized.CompletedLookup | src/analytics/analytics.service.optimized.ts:195-198 | the completed-map lookup of a city, defaulting to 0, is the 'Закрыт' count of the city |
| AnalyticsOptimized.Roi | src/analytics/analytics.service.optimized.ts:296 | roi is revenue over totalOrders when both are positive, and 0 otherwise |
| AnalyticsOptimized.CampaignEntry | src/analytics/analytics.service.optimized.ts:289-316 | the rounded roi is non-negative, and non-zero only with positive revenue and orders |
| AnalyticsOptimized.CampaignEntries | src/analytics/analytics.service.optimized.ts:289-316 | one campaign entry per grouped campaign row, in order |
| AnalyticsOptimized.GetCampaignAnalytics | src/analytics/analytics.service.optimized.ts:236-323 | the campaign entries sorted by descending revenue.total |
| AnalyticsOptimized.GetPerformanceMetrics | src/analytics/analytics.service.optimized.ts:487-648 | the metrics of the status tables, the first 1000 timing rows, and the revenue and expenditure sums |
| AnalyticsOptimized.PerformanceCountsBounds | src/analytics/analytics.service.optimized.ts:565-581 | totals are the sums of the status groups; completed + cancelled ≤ total orders; answered + missed ≤ total calls |
| AnalyticsOptimized.StatusBuckets | src/analytics/analytics.service.optimized.ts:565-581 | two distinct status lookups are non-negative and add up to at most the table's total |
| AnalyticsOptimized.PerformanceSamples | src/analytics/analytics.service.optimized.ts:537-562 | at most 1000 samples per timing, each the duration of a matching order; with at most 1000 matches, one per match |
| AnalyticsLegacy.LegacyOperatorEntry | src/analytics/analytics.service.ts:37-111 | an operator's counts and revenue are filter-counts and sums over the raw rows; avgDuration is the rounded mean over calls with a duration; answered + missed ≤ total; answerRate and conversionRate are the rounded percentages; avgRevenue the guarded mean |
| AnalyticsLegacy.LegacyOperatorStatistics | src/analytics/analytics.service.ts:13-117 | one row per listed operator, in roster order |
| AnalyticsLegacy.DistinctKeysOf | src/analytics/analytics.service.ts:133-137 | `distinct` gives each city (or campaign) of the period's orders once |
| AnalyticsLegacy.LegacyCityEntry | src/analytics/analytics.service.ts:140-181 | a city's orders, completed and revenue are filter-counts over the raw orders; avg revenue the guarded mean; completionRate = Round2(completed / total × 100), in [0, 100]; conversionRate the rounded percentage of the call totals |
| AnalyticsLegacy.LegacyCityAnalytics | src/analytics/analytics.service.ts:123-187 | one entry per distinct city, sorted by descending orders.total |
| AnalyticsLegacy.ResultSum | src/analytics/analytics.service.ts:219-223 | `_sum.result` is null exactly when no order matches, and otherwise the sum |
| AnalyticsLegacy.LegacyRoi | src/analytics/analytics.service.ts:228-231 | roi is non-zero only when the sum is non-null, non-zero and orders are positive, and is then the quotient |
| AnalyticsLegacy.LegacyCampaignEntry | src/analytics/analytics.service.ts:209-255 | a campaign's counts and revenue are filter-counts; completionRate = Round2(completed / total × 100), in [0, 100]; conversionRate the rounded percentage of the call totals; roi the rounded legacy quotient |
| AnalyticsLegacy.LegacyCampaignAnalytics | src/analytics/analytics.service.ts:192-261 | one entry per distinct campaign, sorted by descending revenue.total |
| AnalyticsLegacy.LegacyCounts | src/analytics/analytics.service.ts:499-505 | the performance counts are filters of one list, so completed + cancelled ≤ total and answered + missed ≤ total |
| AnalyticsLegacy.LegacyPerformance | src/analytics/analytics.service.ts:428-576 | counts and sums over the period feed the four block functions: completed, cancelled, answered and missed are status filter-counts, revenue and expenditure null-as-0 sums; the disjoint rates add up to at most 100; mean times over the rows with both timestamps |
| AnalyticsEquivalence.OperatorEntryAgrees | src/analytics/analytics.service.optimized.ts:10-14 | over groupings of the raw rows, a grouped operator row equals the legacy row in everything but avgDuration |
| AnalyticsEquivalence.OperatorStatisticsAgree | src/analytics/analytics.service.optimized.ts:98-133 | the grouped operator statistics equal the legacy ones row by row, avgDuration aside |
| AnalyticsEquivalence.AvgDurationDiffers | src/analytics/analytics.service.optimized.ts:106 | the grouped avgDuration averages answered calls only, the legacy one all timed calls: 60 against 30 on one answered and one missed call |
| AnalyticsEquivalence.EntityGroupCounts | src/analytics/analytics.service.optimized.ts:155-198 | each grouped city or campaign row counts and sums exactly that key's raw orders |
| AnalyticsEquivalence.EntityKeysAgree | src/analytics/analytics.service.ts:133-137 | the grouped keys are, as a multiset, the legacy distinct keys |
| AnalyticsEquivalence.CityAnalyticsAgree | src/analytics/analytics.service.optimized.ts:200-225 | the grouped city entries are a permutation of the legacy ones |
| AnalyticsEquivalence.RoiAgrees | src/analytics/analytics.service.optimized.ts:296 | for a non-negative revenue the two roi formulas agree |
| AnalyticsEquivalence.RoiDiffersWhenNegative | src/analytics/analytics.service.ts:228-231 | for a negative revenue they differ: 0 against −50 |
| AnalyticsEquivalence.CampaignAnalyticsAgree | src/analytics/analytics.service.optimized.ts:289-316 | with non-negative revenues, the grouped campaign entries are a permutation of the legacy ones |
| AnalyticsEquivalence.StatusCountsAgree | src/analytics/analytics.service.optimized.ts:565-581 | the status-table counts equal the legacy filter-counts |
| AnalyticsEquivalence.PerformanceAgrees | src/analytics/analytics.service.optimized.ts:487-648 | with at most 1000 timing rows, the grouped performance metrics equal the legacy ones |
| AnalyticsEquivalence.CompletionSamplesCapped | src/analytics/analytics.service.optimized.ts:546 | with more than 1000 matches the grouped service averages exactly 1000 samples, the legacy one all of them |
| StatsService.FindOperator | src/stats/stats.service.ts:15-23 | finds an operator with the id, and none exactly when no operator has it |
| StatsService.EndOfDay | src/stats/stats.service.ts:31 | `endDate + 'T23:59:59.999Z'` is the last millisecond of that UTC day |
| StatsService.PeriodCovers | src/stats/stats.service.ts:30-31 | the window runs from startDate, or 30 days before now, to the end of endDate's day, or now |
| Numeric.RoundedRate | src/stats/stats.service.ts:160 | `total > 0 ? Math.round(accepted / total * 100) : 0`: 0 without calls, in [0, 100], and the nearest integer to the percentage |
| StatsService.CallBuckets | src/stats/stats.service.ts:58-63 | over a grouping of the operator's calls, accepted counts the 'answered' calls, and missed the 'missed', 'no_answer' and 'busy' ones |
| StatsService.BucketsTotal | src/stats/stats.service.ts:66 | accepted + missed is at most the operator's calls, and equals them exactly when every call has one of the four statuses |
| StatsService.CallSummaryCounts | src/stats/stats.service.ts:50-66 | the call summary: accepted and missed are filter-counts, total = accepted + missed ≤ all calls (equal iff every status is known), acceptanceRate in [0, 100] |
| StatsService.ByStatusCounts | src/stats/stats.service.ts:165-168 | the byStatus entry of a status, defaulting to 0, is the number of the operator's orders with that status |
| StatsService.ByStatusKeys | src/stats/stats.service.ts:165-168 | a status is a key of byStatus exactly when some order of the operator has it |
| StatsService.ByStatusTotal | src/stats/stats.service.ts:75-85 | the byStatus counts add up to the operator's orders |
| StatsService.MergeByDay | src/stats/stats.service.ts:105-108 | the corrected daily loop adds each instant group's count to its UTC day |
| StatsService.DailyCountsLookup | src/stats/stats.service.ts:91-108 | a day's merged count is the sum of the instant groups on that day |
| StatsService.DailyCountsKeys | src/stats/stats.service.ts:91-108 | a day is listed exactly when some instant group falls on it |
| StatsService.DailyCountsAscending | src/stats/stats.service.ts:102 | groups ordered by instant give days in strictly ascending order |
| StatsService.DailyStatsCounts | src/stats/stats.service.ts:91-108 | each merged day's count is the number of the operator's calls on that day in the last seven days |
| StatsService.DailyStatsDays | src/stats/stats.service.ts:91-108 | a day is listed exactly when the operator has a call on it |
| StatsService.DailyStatsDistinct | src/stats/stats.service.ts:91-108 | merged days are distinct and each has a positive count |
| StatsService.DailyStatsRepeatDay | src/stats/stats.service.ts:91-108 | as written: two calls an hour apart give the same day twice, each with 1 call where the day has 2 |
| StatsService.DailyStatsAsWritten | src/stats/stats.service.ts:105-108 | as written: one element per instant group, labelled with the group's UTC day and carrying its count |
| StatsService.DailyStatsMergedDay | src/stats/stats.service.ts:105-108 | corrected: the same two calls give one day with 2 calls |
| StatsService.NameOr | src/stats/stats.service.ts:172 | a name falls back to 'Не указан': it is the name when present and non-empty, else the placeholder, never empty |
| StatsService.NamedCountsSorted | src/stats/stats.service.ts:118-120 | renaming keeps the database's descending call-count order |
| StatsService.NamedCountsAt | src/stats/stats.service.ts:171-178 | a city or rk entry is the number of selected calls with that key, under the key's name or 'Не указан' |
| StatsService.NamedCountsTotal | src/stats/stats.service.ts:171-178 | the city (or rk) entries add up to the calls selected |
| StatsService.GetOperatorStats | src/stats/stats.service.ts:13-191 | an unknown operator is a NotFound failure before any statistic; otherwise the report of that operator, with acceptanceRate = RoundedRate(accepted, total), avgDuration the rounded mean duration of its timed calls, and dailyStats the corrected per-day list (see Findings) |
| StatsService.OperatorReportCounts | src/stats/stats.service.ts:145-179 | accepted counts answered calls; total ≤ all calls; rate in [0, 100]; byStatus adds up to total orders; the city and rk entries add up to the accepted calls |
| StatsService.GetOverallStats | src/stats/stats.service.ts:194-309 | the overall report of the window: its call numbers are counts over the window's calls, with accepted + missed ≤ total and the rate in [0, 100] (OverallCallsBounds); each per-key entry is that key's count of selected calls and the entries sum to them (NamedCountsAt, NamedCountsTotal); each operator entry carries the roster name or 'Не указан' (OperatorCountsNames) |
| StatsService.OverallCallsBounds | src/stats/stats.service.ts:213-225 | accepted + missed ≤ total; acceptanceRate in [0, 100] |
| StatsService.OperatorCountsNames | src/stats/stats.service.ts:249-252 | one entry per operator group, with its count, named after the operator, or 'Не указан' when none has the id |
| StatsService.DashboardMonth | src/stats/stats.service.ts:315-408 | the dashboard counts the orders created on the month's local days; revenue, profit and expenses are the month's sums |
| StatsService.DashboardOf | src/stats/stats.service.ts:315-408 | employees count the active operators, the directors given and the working masters; orders count those created in the month window; revenue, profit and expenses are the window's sums, unchanged by rounding |
| DateRange.Ceil | src/common/dto/date-range.dto.ts:20 | `Math.ceil(x)` is the least integer at or above x |
| DateRange.Validate | src/common/dto/date-range.dto.ts:6-23 | a missing date passes; otherwise the range passes exactly when the distance in ms is at most 365 days |
| DateRange.CeilAtMost | src/common/dto/date-range.dto.ts:20-22 | `ceil(d / unit) <= n` exactly when `d <= n * unit` |
| DateRange.ValidateSymmetric | src/common/dto/date-range.dto.ts:19 | swapping the two dates never changes the verdict |
| DateRange.ValidateBoundary | src/common/dto/date-range.dto.ts:18-22 | exactly 365 days passes; one millisecond more fails |
| RolesGuard.HasRole | src/auth/roles.guard.ts:37 | the user's role is one of the required roles |
| RolesGuard.CanActivate | src/auth/roles.guard.ts:19-45 | no roles metadata allows; roles without a user are Unauthorized; otherwise allow exactly when the role is required, and deny, not throw |
| RolesGuard.EmptyRolesDenyAll | src/auth/roles.guard.ts:25-37 | an empty required-roles list denies every user |
| AuditLog.UnderAuditPath | src/common/interceptors/audit-log.interceptor.ts:57 | the url starts with one of the paths |
| AuditLog.ShouldAuditRequest | src/common/interceptors/audit-log.interceptor.ts:54-58 | every non-GET is audited; a GET exactly when the url starts with '/api/v1/analytics' or '/api/v1/reports/finance' |
| AuditLog.Intercept | src/common/interceptors/audit-log.interceptor.ts:15-52 | the access log is written exactly for audited requests, and the failure log exactly for audited requests that fail |
| AuditLog.PrefixExamples | src/common/interceptors/audit-log.interceptor.ts:57 | a plain prefix test: '/api/v1/reports/orders' is not audited, '/api/v1/analyticsX' is |
| ExceptionFilter.Catch | src/common/filters/global-exception.filter.ts:15-57 | other errors give 500; an HttpException keeps its status; a string response is the message, an object's message property falls back to the default; 500 always masks the message; details only outside production and when truthy; the reply status is the body's |
| CookieConfig.ShouldUseCookies | src/config/cookie.config.ts:47-51 | the first truthy of 'x-use-cookies' and 'X-USE-COOKIES' must be the string 'true' |
| CookieConfig.LowerCaseHeaderWins | src/config/cookie.config.ts:48-49 | a truthy lower-case header decides whatever the upper-case one says |
| CookieConfig.GetCookieName | src/config/cookie.config.ts:56-79 | no origin or no host gives baseName; the main domain gives '_masters'; a dotted host gives '_' + its first label; a single label gives baseName |
| CookieConfig.SubdomainCookieName | src/config/cookie.config.ts:69-73 | 'core.lead-schem.ru' gives baseName + '_core' |
| CookieConfig.BareHostCookieName | src/config/cookie.config.ts:69-78 | 'localhost' gives baseName |
| CookieJwtGuard.FindCookies | src/auth/guards/cookie-jwt-auth.guard.ts:20 | the raw-or-parsed choice of cookie objects: the raw cookies when present, even an empty object, else the parsed ones; none only when neither is present |
| CookieJwtGuard.SelectCookieToken | src/auth/guards/cookie-jwt-auth.guard.ts:30-51 | the plain cookie without signing; with signing, a present cookie that fails to unsign is rejected, and a token taken comes from a valid unsign |
| CookieJwtGuard.SigningOffTakesPlainCookie | src/auth/guards/cookie-jwt-auth.guard.ts:32-50 | signing is off, so the plain access-token cookie is taken |
| CookieJwtGuard.InjectedAuthorization | src/auth/guards/cookie-jwt-auth.guard.ts:57-60 | an existing header is never overwritten; without one, a cookie token becomes 'Bearer ' + token |
| CookieJwtGuard.RequestHeaders.constructor | src/auth/guards/cookie-jwt-auth.guard.ts:57 | the request headers start with the given authorization |
| CookieJwtGuard.CanActivate | src/auth/guards/cookie-jwt-auth.guard.ts:15-64 | a tampered signed cookie rejects and leaves the header; otherwise the header is updated in place and the JWT check is delegated |
| CookieJwtGuard.HandleRequest | src/auth/guards/cookie-jwt-auth.guard.ts:70-81 | the user is returned iff there is no error and a user; expired and malformed tokens map to fixed messages first; otherwise the error is rethrown or a generic one raised |
| Sanitizer.SanitizeForExcel | src/common/utils/sanitizer.util.ts:19-30 | non-strings unchanged; a string starting with = + - @ tab or CR gets a leading quote; any other string, the empty one included, unchanged |
| Sanitizer.SanitizeForExcelSafe | src/common/utils/sanitizer.util.ts:22-30 | the output never starts dangerously, and sanitizing twice is sanitizing once |
| Sanitizer.Sanitized | src/common/utils/sanitizer.util.ts:35-51 | a string becomes `SanitizeHtml` of itself; arrays and objects keep their length and keys and are sanitized element by element; other values are unchanged |
| Sanitizer.SanitizeObject | src/common/utils/sanitizer.util.ts:35-51 | the recursive for-in loop computes `Sanitized` |
| Sanitizer.SanitizedNoStrings | src/common/utils/sanitizer.util.ts:35-51 | only strings are touched: a value holding no string comes back unchanged |
| Sanitizer.SanitizedIdempotent | src/common/utils/sanitizer.util.ts:35-51 | with an idempotent HTML cleaner, sanitizing a sanitized value changes nothing |
| Sanitizer.SanitizeHtml | src/common/utils/sanitizer.util.ts:7-13 | an empty input gives the empty string; anything else is the HTML cleaner `purify` applied to the input |
| Sanitizer.SliceFrom | src/common/utils/sanitizer.util.ts:59 | `slice(start)` with JavaScript's negative-index rule |
| Sanitizer.MaskSensitiveDataAsWritten | src/common/utils/sanitizer.util.ts:56-61 | as written: '***' for an empty or short input; for 1 ≤ visibleChars < length, same length, last visibleChars kept, the rest stars |
| Sanitizer.MaskZeroLeaks | src/common/utils/sanitizer.util.ts:59-60 | as written, visibleChars 0 gives stars followed by the whole input |
| Sanitizer.MaskSensitiveData | src/common/utils/sanitizer.util.ts:56-61 | corrected: for every visibleChars < length, same length, last visibleChars kept, the rest stars |
| Sanitizer.MaskAgreesWhenVisible | src/common/utils/sanitizer.util.ts:59-60 | for visibleChars ≥ 1 the corrected and the written mask agree |
| Sanitizer.SanitizePhone | src/common/utils/sanitizer.util.ts:66-68 | `Filter(phone, IsPhoneChar)`: exactly the digits and '+' of the input, in order, each as often as it occurs; a clean phone is unchanged |
| Sanitizer.SanitizePhoneIdempotent | src/common/utils/sanitizer.util.ts:66-68 | sanitizing a phone twice is sanitizing it once |
| PrismaService.EnhancedUrl | src/prisma/prisma.service.ts:13-31 | a url holding 'connection_limit' is kept; otherwise the parameters are joined by '&' and appended after '&' or '?'; the result always holds 'connection_limit' |
| PrismaService.EnhancedUrlIdempotent | src/prisma/prisma.service.ts:28-31 | enhancing twice is enhancing once |
| PrismaService.ClassifyDuration | src/prisma/prisma.service.ts:57-63 | over 5000 ms error, else over 2000 warn, else over 1000 log, else nothing, exclusively |
| PrismaService.ClassifyMonotone | src/prisma/prisma.service.ts:57-63 | a longer query is logged at least as severely |
| PrismaService.Middleware | src/prisma/prisma.service.ts:49-71 | the query's result or error passes through unchanged; a result is classified by duration, an error logged |

## Left out

- The database layer. `findMany`, `count`, `aggregate`, `groupBy` and the raw SQL of the city report are not modelled. A `count` or `aggregate` is a filter-count or sum over raw rows. A `groupBy` result is an input. The city report's raw grouped rows (order stats, check categories, modern stats, cash stats) are inputs, so their SQL text is not modelled.
- Database tie order. Rows that tie under `orderBy`, and the order of `groupBy` rows, are whatever the inputs give.
- `Promise.all` and async orchestration. Each report is a sequential function of its inputs.
- Date parsing and `toISOString`. Dates are integer milliseconds, and a day key is the UTC day number.
- Time zones. Local time is a fixed offset parameter, with no daylight-saving changes.
- `sevenDaysAgo.setDate(getDate() - 7)` is taken as seven days of milliseconds.
- IEEE-754 rounding of `Math.round(x * 100) / 100`, and `Number` conversions of decimals. Ratios are exact reals; NaN and infinities do not arise.
- Money is modelled as integers, so `Math.round` of the dashboard's money values is the identity.
- `exportToExcel` (ExcelJS), DOMPurify (`purify` is a parameter), JWT verification (`super.canActivate`, delegated), and `unsignCookie` (a parameter). Origin URL parsing is also left out: the host name is a parameter.
- Logging, timing, Redis, controllers, DTO validation decorators and module wiring.
- Code whose result is never used: the legacy operator statistics' unused `where` (src/analytics/analytics.service.ts:14-24), and the unused revenue aggregate of the operator stats (src/stats/stats.service.ts:137-143).
- `_avg` is a rounded mean over the rows with a value. It is modelled as a sum and count: the optimized per-group `_avg.duration` is an input average.
- AnalyticsLegacy.LegacyCityEntry: the legacy city and campaign call totals query calls with the order `where`. Their meaning depends on the database schema, so they are an input (`callTotals`), repeated for every entity as in the source.
- AnalyticsEquivalence.OperatorEntryAgrees: avgDuration is excluded, because the two services compute it differently (`AvgDurationDiffers`).
- AnalyticsEquivalence.CampaignAnalyticsAgree: it requires non-negative revenues, because the two roi formulas differ on negative ones (`RoiDiffersWhenNegative`).
- AnalyticsEquivalence.PerformanceAgrees: it requires at most 1000 timing rows, because the grouped service samples only the first 1000 (`CompletionSamplesCapped`).
- StatsService.GetOperatorStats: the report's dailyStats is the corrected per-day list (`MergeByDay`), not the source's one element per creation instant; the as-written list is `DailyStatsAsWritten`, and the Findings table relates the two.
- StatsService.DashboardMonth: the number of directors is an input, the result of a `count` on another table.
- ExceptionFilter.Catch: a `null` object response would throw in JavaScript when its message is read. The model treats `null` like any other non-object response.
- Sanitizer.SanitizeHtml: DOMPurify itself is not modelled; the cleaner is the parameter `purify`, about which nothing is assumed.

## Findings

| source | as written | input that shows it | evidently intended | confidence | as-written member | corrected member |
|---|---|---|---|---|---|---|
| src/common/utils/sanitizer.util.ts:59-60 | `data.slice(-visibleChars)` with visibleChars 0 is `slice(0)`, the whole string | `maskSensitiveData("secret", 0)` gives `"******secret"` | show no characters: `"******"` | not executed | Sanitizer.MaskSensitiveDataAsWritten, Sanitizer.MaskZeroLeaks | Sanitizer.MaskSensitiveData, Sanitizer.MaskAgreesWhenVisible |
| src/stats/stats.service.ts:91-108 | the daily stats group calls by their exact `dateCreate` instant and then map each group to its day, so a day repeats once per distinct instant | two answered calls of one operator at 2024-01-01 10:00 and 11:00 UTC give `[{date: 2024-01-01, calls: 1}, {date: 2024-01-01, calls: 1}]` | one entry per day with the day's call count | not executed | StatsService.DailyStatsAsWritten, StatsService.DailyStatsRepeatDay | StatsService.MergeByDay, StatsService.DailyStatsMergedDay |
