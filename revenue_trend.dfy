/** `getRevenueTrend`: a window per calendar month, built by a counting-down
    loop from `months - 1` months ago to the current month, and the revenue of
    the priced payments inside each window. */
module RevenueTrend {
  import opened Store
  import Clock
  import Revenue

  /** The `months` query parameter as `parseInt` reads it: absent (the default
      5 applies), an integer, or NaN. */
  datatype MonthsQuery = Absent | Parsed(n: int) | NotANumber

  /** How many passes the loop makes from `i = months - 1` down to 0. NaN makes
      `NaN >= 0` false at once, exactly as 0 months does. */
  function Requested(q: MonthsQuery): int {
    match q
    case Absent => 5
    case Parsed(n) => n
    case NotANumber => 0
  }

  /** One `monthsArray` entry; the `toLocaleString` label is represented by the
      month number itself. */
  datatype MonthWindow = MonthWindow(month: int, start: int, end: int)

  /** `start: new Date(y, m, 1)` and `end: new Date(y, m + 1, 0, 23, 59, 59)` on
      the local clock for month `month`. */
  function WindowOf(month: int, utcOffsetMs: int): (w: MonthWindow)
    ensures w.month == month
  {
    var y, m := Clock.YearOf(month), Clock.MonthOf(month);
    MonthWindow(month, Clock.LocalDateTime(y, m, 1, 0, 0, 0, utcOffsetMs), Clock.LocalDateTime(y, m + 1, 0, 23, 59, 59, utcOffsetMs))
  }

  /** The `where` clause of a month's query: priced payments with
      `start <= event_time <= end`. */
  function PaidIn(w: MonthWindow): Activity -> bool {
    Priced(OfTypeDuring({PaymentSuccess}, Closed(w.start, w.end)))
  }

  /** The revenue the accumulator reaches for window `w`. */
  function MonthRevenue(activities: seq<Activity>, w: MonthWindow): real {
    Revenue.Revenue(Filter(activities, PaidIn(w)))
  }

  datatype TrendEntry = TrendEntry(month: int, revenue: real)

  /** The `for (let i = parseInt(months) - 1; i >= 0; i--)` loop: the month
      `i` months before the current one is pushed, oldest first. */
  method MonthWindows(currentYear: int, currentMonth: int, q: MonthsQuery, utcOffsetMs: int)
    returns (windows: seq<MonthWindow>)
    ensures |windows| == if Requested(q) > 0 then Requested(q) else 0
    ensures forall k :: 0 <= k < |windows| ==>
      windows[k].month == Clock.MonthIndex(currentYear, currentMonth) - (Requested(q) - 1) + k
    ensures forall k :: 0 <= k < |windows| ==> windows[k] == WindowOf(windows[k].month, utcOffsetMs)
  {
    var n := Requested(q);
    ghost var oldest := Clock.MonthIndex(currentYear, currentMonth) - (n - 1);
    windows := [];
    var i := n - 1;
    while i >= 0
      invariant i == n - 1 - |windows|
      invariant i >= -1 || windows == []
      invariant forall k :: 0 <= k < |windows| ==> windows[k].month == oldest + k
      invariant forall k :: 0 <= k < |windows| ==> windows[k] == WindowOf(windows[k].month, utcOffsetMs)
      decreases i
    {
      var date := Clock.MonthIndex(currentYear, currentMonth - i);
      windows := windows + [WindowOf(date, utcOffsetMs)];
      i := i - 1;
    }
  }

  /** `getRevenueTrend`: each window's revenue, in window order. */
  method GetRevenueTrend(activities: seq<Activity>, currentYear: int, currentMonth: int, q: MonthsQuery, utcOffsetMs: int)
    returns (trend: seq<TrendEntry>)
    ensures |trend| == if Requested(q) > 0 then Requested(q) else 0
    ensures forall k :: 0 <= k < |trend| ==>
      trend[k].month == Clock.MonthIndex(currentYear, currentMonth) - (Requested(q) - 1) + k
    ensures forall k :: 0 <= k < |trend| ==>
      trend[k].revenue == MonthRevenue(activities, WindowOf(trend[k].month, utcOffsetMs))
  {
    var windows := MonthWindows(currentYear, currentMonth, q, utcOffsetMs);
    trend := [];
    for k := 0 to |windows|
      invariant |trend| == k
      invariant forall j :: 0 <= j < k ==> trend[j] == TrendEntry(windows[j].month, MonthRevenue(activities, windows[j]))
    {
      var events := Filter(activities, PaidIn(windows[k]));
      var revenue := Revenue.SumRevenue(events);
      trend := trend + [TrendEntry(windows[k].month, revenue)];
    }
  }

  /** The trend lists consecutive months, oldest first, and ends with the
      current month; zero, negative or non-numeric `months` give no entries. */
  lemma TrendMonths(currentYear: int, currentMonth: int, q: MonthsQuery, trend: seq<TrendEntry>)
    requires |trend| == if Requested(q) > 0 then Requested(q) else 0
    requires forall k :: 0 <= k < |trend| ==>
      trend[k].month == Clock.MonthIndex(currentYear, currentMonth) - (Requested(q) - 1) + k
    ensures Requested(q) <= 0 <==> trend == []
    ensures q.Absent? ==> |trend| == 5
    ensures q.NotANumber? ==> trend == []
    ensures q.Parsed? ==> |trend| == if q.n > 0 then q.n else 0
    ensures trend != [] ==> trend[|trend| - 1].month == Clock.MonthIndex(currentYear, currentMonth)
    ensures forall k :: 0 < k < |trend| ==> trend[k].month == trend[k - 1].month + 1
  {
  }

  lemma WholeDays(d: int, t: int)
    requires t == d * 86_400_000
    ensures t % 86_400_000 == 0 && t / 86_400_000 == d
  {
  }

  /** A window starts at local midnight of the month's first day and ends at
      23:59:59 of its last day, so it is never empty. */
  lemma WindowShape(month: int, utcOffsetMs: int)
    ensures (WindowOf(month, utcOffsetMs).start + utcOffsetMs) % 86_400_000 == 0
    ensures (WindowOf(month, utcOffsetMs).start + utcOffsetMs) / 86_400_000 == Clock.MonthStartDay(month)
    ensures WindowOf(month, utcOffsetMs).end
         == WindowOf(month, utcOffsetMs).start + Clock.DaysInMonth(Clock.YearOf(month), Clock.MonthOf(month)) * 86_400_000 - 1000
    ensures WindowOf(month, utcOffsetMs).start < WindowOf(month, utcOffsetMs).end
  {
    WindowBounds(month, utcOffsetMs);
    var start := Clock.MonthStartDay(month);
    var days := Clock.DaysInMonth(Clock.YearOf(month), Clock.MonthOf(month));
    Clock.MonthLength(month);
    DayShift(start, days);
    WholeDays(start, WindowOf(month, utcOffsetMs).start + utcOffsetMs);
  }

  /** On the local clock a window opens at 00:00:00 on the month's first day
      and closes at 23:59:59 on the day before the next month's first day. */
  lemma WindowLocalTimes(month: int, utcOffsetMs: int)
    ensures (WindowOf(month, utcOffsetMs).start + utcOffsetMs) / 86_400_000 == Clock.MonthStartDay(month)
    ensures (WindowOf(month, utcOffsetMs).start + utcOffsetMs) % 86_400_000 == 0
    ensures (WindowOf(month, utcOffsetMs).end + utcOffsetMs) / 86_400_000 == Clock.MonthStartDay(month + 1) - 1
    ensures (WindowOf(month, utcOffsetMs).end + utcOffsetMs) % 86_400_000 == 86_399_000
  {
    var y, m := Clock.YearOf(month), Clock.MonthOf(month);
    assert Clock.MonthIndex(y, m) == month;
    assert Clock.MonthIndex(y, m + 1) == month + 1;
  }

  /** The next month's window starts one second after this one ends: the
      999 ms after 23:59:59.000 of a month's last day belong to no window. */
  lemma NextWindowFollows(month: int, utcOffsetMs: int)
    ensures WindowOf(month + 1, utcOffsetMs).start == WindowOf(month, utcOffsetMs).end + 1000
  {
    var y, m := Clock.YearOf(month), Clock.MonthOf(month);
    var y', m' := Clock.YearOf(month + 1), Clock.MonthOf(month + 1);
    assert Clock.MonthIndex(y, m + 1) == month + 1;
    assert Clock.MonthIndex(y', m') == month + 1;
  }

  /** Later months start later. */
  lemma StartsIncrease(a: int, b: int, utcOffsetMs: int)
    requires a <= b
    ensures WindowOf(a, utcOffsetMs).start <= WindowOf(b, utcOffsetMs).start
    ensures a < b ==> WindowOf(a, utcOffsetMs).start < WindowOf(b, utcOffsetMs).start
  {
    Clock.MonthStartIncreasing(a, b);
    assert Clock.MonthIndex(Clock.YearOf(a), Clock.MonthOf(a)) == a;
    assert Clock.MonthIndex(Clock.YearOf(b), Clock.MonthOf(b)) == b;
  }

  /** Both ends of a window in day numbers: it starts at the local midnight
      that opens the month and ends one second before the local midnight that
      opens the next month. */
  lemma WindowBounds(month: int, utcOffsetMs: int)
    ensures WindowOf(month, utcOffsetMs).start == Clock.MonthStartDay(month) * 86_400_000 - utcOffsetMs
    ensures WindowOf(month, utcOffsetMs).end == Clock.MonthStartDay(month + 1) * 86_400_000 - utcOffsetMs - 1000
  {
    var y, m := Clock.YearOf(month), Clock.MonthOf(month);
    assert Clock.MonthIndex(y, m) == month;
    assert Clock.MonthIndex(y, m + 1) == month + 1;
  }

  lemma DayShift(d: int, n: int)
    ensures (d + n) * 86_400_000 == d * 86_400_000 + n * 86_400_000
  {
  }

  lemma ScaleByDay(x: int, y: int)
    requires x <= y
    ensures x * 86_400_000 <= y * 86_400_000
  {
  }

  /** Windows of different months never overlap: an earlier month's window
      ends before a later month's window starts. */
  lemma WindowsOrdered(a: int, b: int, utcOffsetMs: int)
    requires a < b
    ensures WindowOf(a, utcOffsetMs).end < WindowOf(b, utcOffsetMs).start
  {
    WindowBounds(a, utcOffsetMs);
    WindowBounds(b, utcOffsetMs);
    Clock.MonthStartIncreasing(a + 1, b);
    ScaleByDay(Clock.MonthStartDay(a + 1), Clock.MonthStartDay(b));
  }

  /** An instant strictly between a window's end and the next window's start
      lies in the window of no month at all. */
  lemma GapInNoWindow(month: int, utcOffsetMs: int, t: int)
    requires WindowOf(month, utcOffsetMs).end < t < WindowOf(month + 1, utcOffsetMs).start
    ensures forall k :: !Closed(WindowOf(k, utcOffsetMs).start, WindowOf(k, utcOffsetMs).end).Contains(t)
  {
    forall k ensures !Closed(WindowOf(k, utcOffsetMs).start, WindowOf(k, utcOffsetMs).end).Contains(t) {
      OutsideWindow(month, k, utcOffsetMs, t);
    }
  }

  lemma OutsideWindow(month: int, k: int, utcOffsetMs: int, t: int)
    requires WindowOf(month, utcOffsetMs).end < t < WindowOf(month + 1, utcOffsetMs).start
    ensures t < WindowOf(k, utcOffsetMs).start || WindowOf(k, utcOffsetMs).end < t
  {
    if k <= month {
      EndsIncrease(k, month, utcOffsetMs);
    } else {
      StartsIncrease(month + 1, k, utcOffsetMs);
    }
  }

  lemma EndsIncrease(a: int, b: int, utcOffsetMs: int)
    requires a <= b
    ensures WindowOf(a, utcOffsetMs).end <= WindowOf(b, utcOffsetMs).end
  {
    NextWindowFollows(a, utcOffsetMs);
    NextWindowFollows(b, utcOffsetMs);
    StartsIncrease(a + 1, b + 1, utcOffsetMs);
  }

  /** A payment half a second after 23:59:59 on a month's last day adds to the
      revenue of no month of any trend. */
  lemma LastSecondPaymentUncounted(month: int, utcOffsetMs: int, value: real)
    ensures var a := Activity(PaymentSuccess, WindowOf(month, utcOffsetMs).end + 500, false, Numeric(value));
      forall k :: MonthRevenue([a], WindowOf(k, utcOffsetMs)) == 0.0
  {
    var t := WindowOf(month, utcOffsetMs).end + 500;
    var a := Activity(PaymentSuccess, t, false, Numeric(value));
    NextWindowFollows(month, utcOffsetMs);
    GapInNoWindow(month, utcOffsetMs, t);
    forall k ensures MonthRevenue([a], WindowOf(k, utcOffsetMs)) == 0.0 {
      assert !PaidIn(WindowOf(k, utcOffsetMs))(a);
      assert Filter([a], PaidIn(WindowOf(k, utcOffsetMs))) == [];
    }
  }

  /** In a leap year February's window runs over 29 days, otherwise over 28:
      the window follows the Gregorian calendar. */
  lemma FebruaryWindow(year: int, utcOffsetMs: int)
    ensures var w := WindowOf(Clock.MonthIndex(year, 1), utcOffsetMs);
      w.end == w.start + (if Clock.IsLeapYear(year) then 29 else 28) * 86_400_000 - 1000
  {
    var feb := Clock.MonthIndex(year, 1);
    assert Clock.YearOf(feb) == year && Clock.MonthOf(feb) == 1;
    WindowBounds(feb, utcOffsetMs);
    Clock.MonthLength(feb);
    DayShift(Clock.MonthStartDay(feb), Clock.DaysInMonth(year, 1));
  }
}
