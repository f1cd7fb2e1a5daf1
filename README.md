# Analytics aggregation engine

A Dafny model of the aggregation logic in the admin analytics controller of
the store's server (`server/src/controllers/analytics.controller.js`). Its
four handlers are modelled behind their database queries:

- `getOverview`: today's visitors, logged-in users, active users, revenue,
  orders and refunds, over the half-open local day `[midnight, next midnight)`.
- `getFunnel`: five stage counts over a closed period, each stage's drop-off
  against the stage before (`calculateDropOff`), and the overall conversion.
- `getUserAnalytics`: the `dateMap` that three `forEach` loops fill with
  per-UTC-day counts of logins, registrations and password changes, the
  sort by date, and the guest/registered split.
- `getRevenueTrend`: the counting-down loop that builds one month window
  per requested month, and the revenue accumulator run over each window.

The database is a snapshot: one sequence per table (`user_sessions`,
`user_activity`, `user_audit_log`). A Prisma `count` is the length of a filter
over a table, and a `findMany` is the filter itself. Timestamps are integer
milliseconds since the Unix epoch. The server's time zone is a fixed offset
`utcOffsetMs`. Months are numbered `year * 12 + month`, with the month counted
from 0 as `getMonth` does. Amounts are exact reals.

Modules:

- `Clock`: instants, UTC days, local midnight, Gregorian month lengths, and
  `new Date(y, m, d, h, min, s)` with its carry-over of out-of-range fields.
- `Store`: the records, the time windows and the `where` clauses.
- `Revenue`: the `revenue += amount || 0` accumulator.
- `Funnel`: `getFunnel`.
- `Overview`: `getOverview`.
- `DailyStats`: `getUserAnalytics`.
- `RevenueTrend`: `getRevenueTrend`.

In the imperative parts, the loop becomes a method proved against a function
that specifies it:

- the `dateMap` loops against `DailyStats.Buckets`;
- the `monthsArray` loop against `RevenueTrend.WindowOf`;
- the accumulators against `Revenue.Revenue`.

The properties are proved about those functions.

The code does not clamp the drop-off. A stage larger than the stage before it
gives a negative value; `Funnel.DropOffOfGrowth` states exactly when.

## Model

| member | source | states |
|---|---|---|
| Clock.UtcDay | server/src/controllers/analytics.controller.js:267 | the date part of `toISOString` is the UTC day whose 24 hours contain the instant |
| Clock.LocalMidnight | server/src/controllers/analytics.controller.js:10-11 | `setHours(0,0,0,0)` gives the local midnight at or before now, less than a day before it |
| Clock.DaysInMonth | server/src/controllers/analytics.controller.js:385 | the day before day 1 of the next month is day 28 to 31, and day 29 only in a leap-year February |
| Clock.MonthOf | server/src/controllers/analytics.controller.js:381 | the month `new Date(y, m - i, 1)` lands on is always within 0..11, whatever `m - i` is |
| Clock.LocalDateTime | server/src/controllers/analytics.controller.js:384-385 | with hours, minutes and seconds in their usual ranges, `new Date(y, m, d, h, min, s)` falls on local day d of month m at wall-clock time h:min:s |
| Clock.DayZeroIsLastDay | server/src/controllers/analytics.controller.js:385 | day 0 of month m + 1 is the last day of month m, at the same time of day |
| Clock.LeapYearsStep | server/src/controllers/analytics.controller.js:385 | one more year adds one leap day exactly when the year is a leap year under the 4/100/400 rule |
| Clock.GregorianMonthLength | server/src/controllers/analytics.controller.js:384-385 | under the closed Gregorian day count, each month starts exactly one month length after the previous one, across year ends too |
| Clock.GregorianAgrees | server/src/controllers/analytics.controller.js:384-385 | summing month lengths from January 1970 gives the closed Gregorian day count for every month, before and after 1970 |
| Clock.MonthStartIncreasing | server/src/controllers/analytics.controller.js:381-385 | a later month starts at least 28 days per month later |
| Clock.LeapYearAnchor | server/src/controllers/analytics.controller.js:384 | 1 February 2024 is day 19754 after the epoch |
| Clock.CenturyAnchor | server/src/controllers/analytics.controller.js:384 | 1 March 2000 is day 11017 after the epoch, because 2000 is a leap year |
| Clock.PreEpochAnchor | server/src/controllers/analytics.controller.js:384 | 1 March 1900 is 25508 days before the epoch, because 1900 is not a leap year |
| Store.Period | server/src/controllers/analytics.controller.js:123-125 | a closed window whose lower bound is the given start, else `defaultDays` days before now, and whose upper bound is the given end, else now |
| Store.Filter | server/src/controllers/analytics.controller.js:253-264 | a `findMany` returns no more rows than the table, only rows that match, and every row that matches |
| Store.FilterMultiplicity | server/src/controllers/analytics.controller.js:253-264 | a `findMany` keeps each matching row as many times as the table holds it and drops every other row, so identical rows are counted separately |
| Store.CountDisjoint3 | server/src/controllers/analytics.controller.js:148-179 | counts under three mutually exclusive filters add up to at most the table's size |
| Store.CountMonotone | server/src/controllers/analytics.controller.js:26-34 | a count under a stricter `where` clause is never larger |
| Store.CountSplit | server/src/controllers/analytics.controller.js:325-343 | two disjoint filters that together cover a third give counts that add up to the third's count |
| Store.EventTimes | server/src/controllers/analytics.controller.js:261-263 | selecting `event_time` keeps one time per row, in row order |
| Store.AuditTimes | server/src/controllers/analytics.controller.js:308-310 | selecting `created_at` keeps one time per row, in row order |
| Store.GuestSplit | server/src/controllers/analytics.controller.js:325-352 | `guest + registered` equals the count of all activity in the period, so the reported total counts each event once |
| Revenue.Contribution | server/src/controllers/analytics.controller.js:67-70 | only an amount that parses as a number contributes to the total, and it contributes exactly its value |
| Revenue.SumRevenue | server/src/controllers/analytics.controller.js:65-72 | the accumulator that skips falsy amounts and adds `amount \|\| 0` ends at the revenue of the batch |
| Revenue.RevenueAppend | server/src/controllers/analytics.controller.js:407-413 | the revenue of two batches together is the sum of their revenues |
| Revenue.UnpricedEventAddsNothing | server/src/controllers/analytics.controller.js:409-411 | an event with a null or unparseable amount adds nothing, wherever it stands |
| Revenue.RevenueRemove | server/src/controllers/analytics.controller.js:407-413 | taking one event out of a batch takes exactly its contribution off the revenue |
| Revenue.RevenuePermutation | server/src/controllers/analytics.controller.js:407-413 | the revenue does not depend on the order in which the events are returned |
| Revenue.NullAmountsAddNothing | server/src/controllers/analytics.controller.js:55-57 | the `amount: {not: null}` condition does not change the revenue |
| Revenue.RevenueNonNegative | server/src/controllers/analytics.controller.js:407-413 | when no amount is negative, the revenue is not negative |
| Revenue.MixedAmountsExample | server/src/controllers/analytics.controller.js:65-72 | the amounts 10, "20.50" and null sum to 30.5 |
| Funnel.DropOff | server/src/controllers/analytics.controller.js:182-185 | 0 when the previous count is 0, otherwise the integer nearest to the percentage lost, with halves rounded up |
| Funnel.DropOffInRange | server/src/controllers/analytics.controller.js:182-185 | a stage no larger than the stage before it has a drop-off between 0 and 100 |
| Funnel.DropOffOfGrowth | server/src/controllers/analytics.controller.js:182-185 | a stage larger than the stage before it has a drop-off of at most 0, negative exactly when it grew by more than half a percent; nothing clamps it |
| Funnel.BuildFunnel | server/src/controllers/analytics.controller.js:187-213 | five steps labelled in the fixed stage order with their counts; the first step's drop-off is 0 and each later step's is measured against the step before it |
| Funnel.OverallConversion | server/src/controllers/analytics.controller.js:216 | 0 without visitors, otherwise payments per visitor as a percentage rounded to hundredths with halves up; it never divides by zero |
| Funnel.ConversionInRange | server/src/controllers/analytics.controller.js:216 | the conversion is never negative, and at most 100.00 when payments do not outnumber visitors |
| Funnel.NarrowingFunnelInRange | server/src/controllers/analytics.controller.js:187-213 | in a funnel where every stage is no larger than the stage before it, every drop-off is between 0 and 100 |
| Funnel.RegisteredDropOffInRange | server/src/controllers/analytics.controller.js:127-196 | registered sessions are a subset of visitor sessions, so the second step's drop-off is between 0 and 100 for any data |
| Funnel.FunnelShape | server/src/controllers/analytics.controller.js:187-213 | every report has exactly five steps, labelled in the fixed order |
| Funnel.StageCountsOf | server/src/controllers/analytics.controller.js:127-179 | registered sessions never outnumber visitor sessions, visitors never outnumber sessions, and the cart, checkout and payment counts together never exceed the activity rows |
| Funnel.GetFunnel | server/src/controllers/analytics.controller.js:121-228 | the report covers the period (default: the last 30 days); its five counts are the five queries of that period, in stage order; each step carries its stage's label; the first drop-off is 0 and each later one is measured against the count before it; its conversion is computed from the first and the last count |
| Funnel.EmptyStoreFunnel | server/src/controllers/analytics.controller.js:182-216 | with no data, every count, every drop-off and the conversion are 0 |
| Funnel.WorkedExample | server/src/controllers/analytics.controller.js:182-216 | the counts 100/50/10/4/2 give drop-offs 0, 50, 80, 60, 50 and a conversion of 2.00 |
| Overview.Today | server/src/controllers/analytics.controller.js:10-13 | the overview window is half-open, starts at the local midnight at or before now, is exactly one day long, and contains now |
| Overview.OverviewOf | server/src/controllers/analytics.controller.js:16-94 | the six metrics over today's window; logged-in users are at most the visitors, who are at most the sessions; active users are at most the sessions; orders plus refunds are at most the activity rows |
| Overview.GetOverview | server/src/controllers/analytics.controller.js:16-94 | the six metrics are the six queries over today's window and the five-minute cutoff, and logged-in users never outnumber visitors |
| Overview.LoggedInAtMostVisitors | server/src/controllers/analytics.controller.js:16-34 | the logged-in count is the visitor filter plus `is_guest = false`, so it is at most the visitor count |
| Overview.RevenueAgainstOrders | server/src/controllers/analytics.controller.js:47-83 | orders count every payment, including unpriced ones; revenue sums only the priced payments, whose number is at most the orders, and equals the sum over all payments |
| Overview.EmptyDay | server/src/controllers/analytics.controller.js:16-94 | a day without data reports six zeros |
| Overview.ActiveNotBoundedByVisitors | server/src/controllers/analytics.controller.js:36-45 | an open session that started before midnight counts as active now without counting as a visitor today |
| DailyStats.Zero | server/src/controllers/analytics.controller.js:268-270 | a newly seen day gets a record under its own date with every counter at 0 |
| DailyStats.Bump | server/src/controllers/analytics.controller.js:271 | `++` raises exactly one counter by one and leaves the date and the other counters alone |
| DailyStats.Tally | server/src/controllers/analytics.controller.js:266-271 | one `forEach` iteration adds the event's day if it is new, leaves every other day's record unchanged, and bumps one counter of that day's record, starting from the zero record for a new day |
| DailyStats.CountOnPositive | server/src/controllers/analytics.controller.js:266-272 | a day has at least one event of a stream exactly when some event of that stream falls on it |
| DailyStats.OnlyDaysWithEvents | server/src/controllers/analytics.controller.js:250-322 | a day appears in the map exactly when some event falls on it (no zero-filling), under its own date, with each counter equal to that day's events of its stream |
| DailyStats.CountOnExtend | server/src/controllers/analytics.controller.js:266-319 | one more event adds one to its own stream's count for its own day and nothing to any other count |
| DailyStats.TallyExtendsDays | server/src/controllers/analytics.controller.js:268-270 | one `forEach` iteration adds the event's day to the map and no other day |
| DailyStats.TallyExtendsEntry | server/src/controllers/analytics.controller.js:268-271 | after one `forEach` iteration, each day's record is the grouping of the extended event streams |
| DailyStats.TallyExtends | server/src/controllers/analytics.controller.js:266-319 | one `forEach` iteration turns the grouping of the events so far into the grouping with one more event |
| DailyStats.EarliestDay | server/src/controllers/analytics.controller.js:322 | a non-empty set of dates has a member no later than all the others |
| DailyStats.SortByDate | server/src/controllers/analytics.controller.js:322 | every entry of the sorted output is a value of the map |
| DailyStats.SortedEntriesFromMap | server/src/controllers/analytics.controller.js:322 | `Array.from(dateMap.values())` sorted holds only entries of the map, each under its own date |
| DailyStats.SortedAscending | server/src/controllers/analytics.controller.js:322 | the sorted entries have strictly ascending dates, so each date appears at most once |
| DailyStats.SortedCoversMap | server/src/controllers/analytics.controller.js:322 | the sorted entries leave out no entry of the map |
| DailyStats.TotalWithout | server/src/controllers/analytics.controller.js:322 | the column total over the sorted entries is any one day's count plus the total without that day |
| DailyStats.TallyTotal | server/src/controllers/analytics.controller.js:266-319 | a `forEach` iteration raises its own counter's column total by one and leaves the other two totals unchanged |
| DailyStats.Conservation | server/src/controllers/analytics.controller.js:266-322 | summing a counter over `daily_stats` gives the number of events of its stream: each event lands in exactly one day |
| DailyStats.Record | server/src/controllers/analytics.controller.js:267-271 | one loop body creates the zero record when needed and bumps one counter |
| DailyStats.TallyStream | server/src/controllers/analytics.controller.js:266-272 | one `forEach` over a stream leaves the map equal to the grouping with that stream's events added |
| DailyStats.CollectDailyStats | server/src/controllers/analytics.controller.js:250-322 | the three loops and the sort give the grouping of all events sorted by date; the column totals equal the stream sizes and the dates strictly ascend |
| DailyStats.GetUserAnalytics | server/src/controllers/analytics.controller.js:245-353 | the report covers the period (default: the last 7 days); each column total equals the matching query's count; `guest` is the `is_guest: true` count and `registered` the `is_guest: false` count; `total` is their sum and equals all activity in the period |
| RevenueTrend.WindowOf | server/src/controllers/analytics.controller.js:381-386 | each window carries the month it was built for; its bounds are stated by `WindowBounds`, `WindowLocalTimes` and `WindowShape` |
| RevenueTrend.MonthWindows | server/src/controllers/analytics.controller.js:376-387 | the loop pushes max(n, 0) windows, oldest first, for consecutive months ending with the current month, each the month's window |
| RevenueTrend.GetRevenueTrend | server/src/controllers/analytics.controller.js:389-417 | one entry per window in window order; each holds the revenue of the priced payments inside its month's window |
| RevenueTrend.TrendMonths | server/src/controllers/analytics.controller.js:376-387 | the trend is empty exactly when `months` is not positive; it has 5 entries when `months` is absent, none when it is not a number, and max(n, 0) for a parsed n; the last entry is the current month, and entries are consecutive months |
| RevenueTrend.WindowBounds | server/src/controllers/analytics.controller.js:384-385 | a window starts at the local midnight of its month's first day and ends one second before the local midnight of the next month's first day |
| RevenueTrend.WindowLocalTimes | server/src/controllers/analytics.controller.js:384-385 | on the local clock a window opens at 00:00:00 on the month's first day and closes at 23:59:59 on the day before the next month starts |
| RevenueTrend.WindowShape | server/src/controllers/analytics.controller.js:384-385 | a window starts at a local midnight on day 1 of its month, ends at 23:59:59 of the month's last day, and is not empty |
| RevenueTrend.NextWindowFollows | server/src/controllers/analytics.controller.js:384-385 | the next month's window starts one second after this month's window ends |
| RevenueTrend.StartsIncrease | server/src/controllers/analytics.controller.js:384 | later months have later window starts |
| RevenueTrend.EndsIncrease | server/src/controllers/analytics.controller.js:385 | later months have window ends no earlier |
| RevenueTrend.WindowsOrdered | server/src/controllers/analytics.controller.js:384-385 | windows of different months never overlap: the earlier one ends before the later one starts |
| RevenueTrend.OutsideWindow | server/src/controllers/analytics.controller.js:385-396 | an instant in the gap after a window's 23:59:59 end lies outside every month's window |
| RevenueTrend.GapInNoWindow | server/src/controllers/analytics.controller.js:385-396 | the 999 ms after a month's 23:59:59 end belong to no month's window |
| RevenueTrend.LastSecondPaymentUncounted | server/src/controllers/analytics.controller.js:385-413 | a payment half a second after a month's 23:59:59 end adds to the revenue of no month |
| RevenueTrend.FebruaryWindow | server/src/controllers/analytics.controller.js:385 | February's window spans 29 days in a leap year and 28 otherwise |

## Left out

- Prisma and Express: the queries become filters over in-memory tables. The
  `res.json` envelope, the `period` strings and the 500 error responses are not
  modelled. Each handler returns its data directly.
- `Promise.all` in `getRevenueTrend`: the month queries run one after another,
  in window order. The result is the same.
- Floating point: `parseFloat`, float addition and `toFixed` become exact reals
  and exact rounding. Float rounding error and values past 2^53 are not
  modelled.
- `Funnel.DropOff` and `Funnel.OverallConversion` round the exact ratio, while
  `calculateDropOff` (server/src/controllers/analytics.controller.js:184) and
  the overall conversion (line 216) round a double. At a half the two can
  differ: for previous = 200 and current = 171 the double
  `(29 / 200) * 100` falls just below 14.5 and rounds to 14, where the
  exact value 14.5 rounds to 15.
- `Revenue.Contribution`: a string amount that starts with a number is assumed
  to be already read as that number. `parseFloat`'s prefix parsing is not
  modelled.
- `Funnel.OverallConversion`: returns the conversion in hundredths of a percent,
  an integer. The string from `toFixed(2)` and the `parseFloat` back to a number
  are not modelled.
- `toLocaleString('default', { month: 'short' })`: the trend's month label is
  the month number. The locale is not modelled.
- Time zones: local time is UTC plus a fixed offset. Daylight saving time is not
  modelled, nor are other changes to the offset.
- Clock reads: the handlers read the clock several times. The model uses one
  `now`, and the current year and month, as parameters.
- `new Date(startDate)` parsing: the period bounds are optional integers, with
  an absent or empty string standing for no bound. An invalid date string
  (an `Invalid Date` bound) is not modelled.
- `RevenueTrend.WindowOf`: reads every year literally. For years 0 to 99,
  `new Date(y, ...)` would read the year as 1900 + y. The trend only reaches
  those years with an absurd `months` value.
- The JavaScript `Date` range of ±8.64e15 ms is not modelled: timestamps are
  unbounded integers.
- `RevenueTrend.Requested`: `parseInt` of a huge or infinite count is taken as
  the exact integer. Loop bounds past 2^53 are not modelled.
- `DailyStats.SortByDate`: sorts by day number. The `YYYY-MM-DD` string keys
  order the same way for years 0 to 9999. Keys outside that range are not
  modelled.
- `is_guest`: taken to be never null.
- The client components (`user-analytics-screen.tsx`, `admin-analytics.tsx`,
  `admin-dashboard.tsx`): these display fixed demo arrays and compute nothing.
