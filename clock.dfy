/** Instants, calendar days and months, as the analytics controller uses them.

    An instant is a whole number of milliseconds since 1970-01-01T00:00:00Z.
    The server's local time zone is a fixed offset `utcOffsetMs` (local wall
    clock = UTC + offset). Months are numbered `year * 12 + month`, with the
    month of the year counted from 0 as JavaScript's `getMonth` does; Euclidean
    `/` and `%` by 12 then give exactly the normalisation `new Date(y, m, d)`
    applies to an out-of-range month. A second is 1000 ms, a minute 60_000,
    an hour 3_600_000 and a day 86_400_000; they are written as literals so
    that every product with them stays linear arithmetic. */
module Clock {

  /** The UTC calendar day (days since 1970-01-01) that `toISOString` prints
      for instant `t`: the date part before the 'T'. */
  function UtcDay(t: int): (d: int)
    ensures d * 86_400_000 <= t < (d + 1) * 86_400_000
  {
    t / 86_400_000
  }

  /** `setHours(0, 0, 0, 0)` on the local clock: the last local midnight at or
      before `now`. */
  function LocalMidnight(now: int, utcOffsetMs: int): (m: int)
    ensures m <= now < m + 86_400_000
    ensures (m + utcOffsetMs) % 86_400_000 == 0
  {
    (now + utcOffsetMs) / 86_400_000 * 86_400_000 - utcOffsetMs
  }

  predicate IsLeapYear(y: int) {
    y % 4 == 0 && (y % 100 != 0 || y % 400 == 0)
  }

  /** Length of month `m` (0 = January) of year `y` in the Gregorian calendar. */
  function DaysInMonth(y: int, m: int): (n: int)
    requires 0 <= m < 12
    ensures 28 <= n <= 31
    ensures n == 29 <==> m == 1 && IsLeapYear(y)
  {
    if m == 1 then (if IsLeapYear(y) then 29 else 28)
    else if m == 3 || m == 5 || m == 8 || m == 10 then 30
    else 31
  }

  /** Leap years counted up to, but not including, year `y`; only differences
      of this count are used. */
  function LeapYearsBefore(y: int): int {
    (y - 1) / 4 - (y - 1) / 100 + (y - 1) / 400
  }

  /** Days from 1970-01-01 to January 1st of year `y`. */
  function DaysBeforeYear(y: int): int {
    365 * (y - 1970) + LeapYearsBefore(y) - LeapYearsBefore(1970)
  }

  /** Days from January 1st of year `y` to the first day of month `m`. */
  function DaysBeforeMonth(y: int, m: int): int
    requires 0 <= m < 12
  {
    var common := [0, 31, 59, 90, 120, 151, 181, 212, 243, 273, 304, 334][m];
    if m >= 2 && IsLeapYear(y) then common + 1 else common
  }

  /** The month index `new Date(y, m, ...)` lands on, for any integer `m`. */
  function MonthIndex(y: int, m: int): int {
    y * 12 + m
  }

  function YearOf(monthIndex: int): int { monthIndex / 12 }

  function MonthOf(monthIndex: int): (m: int)
    ensures 0 <= m < 12
  {
    monthIndex % 12
  }

  /** January 1970 as a month number. */
  const EpochMonth: int := 1970 * 12

  /** Days from 1970-01-01 to the first day of month `monthIndex`: the month
      lengths from January 1970 up to it, or back from it, added up. */
  function MonthStartDay(monthIndex: int): int
    decreases if monthIndex >= EpochMonth then monthIndex - EpochMonth else EpochMonth - monthIndex
  {
    if monthIndex == EpochMonth then 0
    else if monthIndex > EpochMonth then
      MonthStartDay(monthIndex - 1) + DaysInMonth(YearOf(monthIndex - 1), MonthOf(monthIndex - 1))
    else MonthStartDay(monthIndex + 1) - DaysInMonth(YearOf(monthIndex), MonthOf(monthIndex))
  }

  /** The closed Gregorian formula for the same day count: whole years with
      their leap days, then whole months of the year. */
  function GregorianMonthStart(monthIndex: int): int {
    DaysBeforeYear(YearOf(monthIndex)) + DaysBeforeMonth(YearOf(monthIndex), MonthOf(monthIndex))
  }

  /** `new Date(y, m, d, h, min, s)` on the local clock, as an instant: every
      field may be out of its usual range and carries over, so day 0 is the
      last day of the month before. */
  function LocalDateTime(y: int, m: int, d: int, h: int, min: int, s: int, utcOffsetMs: int): (t: int)
    ensures 0 <= h < 24 && 0 <= min < 60 && 0 <= s < 60 ==>
      && (t + utcOffsetMs) / 86_400_000 == MonthStartDay(MonthIndex(y, m)) + d - 1
      && (t + utcOffsetMs) % 86_400_000 == h * 3_600_000 + min * 60_000 + s * 1000
  {
    (MonthStartDay(MonthIndex(y, m)) + d - 1) * 86_400_000 + h * 3_600_000 + min * 60_000 + s * 1000 - utcOffsetMs
  }

  /** Day 0 of a month is the last day of the month before: `new Date(y, m + 1,
      0)` lands on the day the month `m` ends on. */
  lemma DayZeroIsLastDay(y: int, m: int, h: int, min: int, s: int, utcOffsetMs: int)
    ensures LocalDateTime(y, m + 1, 0, h, min, s, utcOffsetMs)
         == LocalDateTime(y, m, DaysInMonth(YearOf(MonthIndex(y, m)), MonthOf(MonthIndex(y, m))), h, min, s, utcOffsetMs)
  {
    MonthLength(MonthIndex(y, m));
    assert MonthIndex(y, m + 1) == MonthIndex(y, m) + 1;
  }

  lemma StepDiv4(y: int)
    ensures y / 4 - (y - 1) / 4 == if y % 4 == 0 then 1 else 0
  {
  }

  lemma StepDiv100(y: int)
    ensures y / 100 - (y - 1) / 100 == if y % 100 == 0 then 1 else 0
  {
  }

  lemma StepDiv400(y: int)
    ensures y / 400 - (y - 1) / 400 == if y % 400 == 0 then 1 else 0
  {
  }

  lemma CenturyDivides(y: int)
    ensures y % 400 == 0 ==> y % 100 == 0
    ensures y % 100 == 0 ==> y % 4 == 0
  {
  }

  /** One year more adds one leap year exactly when the year is a leap year. */
  lemma LeapYearsStep(y: int)
    ensures LeapYearsBefore(y + 1) - LeapYearsBefore(y) == if IsLeapYear(y) then 1 else 0
  {
    StepDiv4(y);
    StepDiv100(y);
    StepDiv400(y);
    CenturyDivides(y);
  }

  /** The first day of the next month comes exactly one month length after the
      first day of this one: the calendar has no holes and no overlaps. */
  lemma MonthLength(monthIndex: int)
    ensures MonthStartDay(monthIndex + 1)
         == MonthStartDay(monthIndex) + DaysInMonth(YearOf(monthIndex), MonthOf(monthIndex))
  {
  }

  /** The closed formula steps by the same month lengths. */
  lemma GregorianMonthLength(monthIndex: int)
    ensures GregorianMonthStart(monthIndex + 1)
         == GregorianMonthStart(monthIndex) + DaysInMonth(YearOf(monthIndex), MonthOf(monthIndex))
  {
    var y, m := YearOf(monthIndex), MonthOf(monthIndex);
    assert monthIndex == y * 12 + m;
    if m < 11 {
      assert YearOf(monthIndex + 1) == y && MonthOf(monthIndex + 1) == m + 1;
    } else {
      assert YearOf(monthIndex + 1) == y + 1 && MonthOf(monthIndex + 1) == 0;
      LeapYearsStep(y);
    }
  }

  /** The closed formula starts at day 0 in January 1970. */
  lemma GregorianEpoch()
    ensures GregorianMonthStart(EpochMonth) == 0
  {
    assert YearOf(EpochMonth) == 1970 && MonthOf(EpochMonth) == 0;
  }

  /** The summed month lengths and the closed Gregorian formula agree on every
      month, before and after the epoch. */
  lemma {:induction false} GregorianAgrees(monthIndex: int)
    ensures MonthStartDay(monthIndex) == GregorianMonthStart(monthIndex)
    decreases if monthIndex >= EpochMonth then monthIndex - EpochMonth else EpochMonth - monthIndex
  {
    if monthIndex == EpochMonth {
      GregorianEpoch();
    } else if monthIndex > EpochMonth {
      GregorianAgrees(monthIndex - 1);
      GregorianMonthLength(monthIndex - 1);
    } else {
      GregorianAgrees(monthIndex + 1);
      GregorianMonthLength(monthIndex);
    }
  }

  /** Month starts strictly increase, by at least 28 days a month. */
  lemma {:induction false} MonthStartIncreasing(a: int, b: int)
    requires a <= b
    ensures MonthStartDay(a) + 28 * (b - a) <= MonthStartDay(b)
    decreases b - a
  {
    if a < b {
      MonthStartIncreasing(a, b - 1);
      MonthLength(b - 1);
      assert DaysInMonth(YearOf(b - 1), MonthOf(b - 1)) >= 28;
    }
  }

  /** 2024-02-01 is day 19754 after the epoch. */
  lemma LeapYearAnchor()
    ensures GregorianMonthStart(MonthIndex(2024, 1)) == 19754
  {
    assert YearOf(24289) == 2024 && MonthOf(24289) == 1;
    assert DaysBeforeYear(2024) == 19723;
  }

  /** 2000-03-01 is day 11017 after the epoch: 2000 is a century leap year. */
  lemma CenturyAnchor()
    ensures GregorianMonthStart(MonthIndex(2000, 2)) == 11017
  {
    assert YearOf(24002) == 2000 && MonthOf(24002) == 2;
    assert IsLeapYear(2000);
    assert DaysBeforeYear(2000) == 10957;
  }

  /** 1900-03-01 is 25508 days before the epoch: 1900 is a century year and
      not a leap year. */
  lemma PreEpochAnchor()
    ensures GregorianMonthStart(MonthIndex(1900, 2)) == -25508
  {
    assert YearOf(22802) == 1900 && MonthOf(22802) == 2;
    assert !IsLeapYear(1900);
    assert DaysBeforeYear(1900) == -25567;
  }
}
