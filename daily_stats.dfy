/** `getUserAnalytics`: per-day counts of logins, registrations and password
    changes, grouped in a map keyed by UTC calendar day and emitted in date
    order, plus the guest/registered split of the period's activity.

    A day is the number of days since 1970-01-01 of the event's UTC date, the
    `YYYY-MM-DD` string `toISOString().split('T')[0]` gives; comparing those
    strings (`localeCompare`) orders them as the day numbers for four-digit
    years. */
module DailyStats {
  import opened Store
  import Clock

  datatype Counter = Logins | Registrations | PasswordChanges

  /** One `daily_stats` entry. */
  datatype DayStats = DayStats(date: int, logins: nat, registrations: nat, passwordChanges: nat)

  function Get(d: DayStats, c: Counter): nat {
    match c
    case Logins => d.logins
    case Registrations => d.registrations
    case PasswordChanges => d.passwordChanges
  }

  /** The record `dateMap.set` creates for a day seen the first time. */
  function Zero(day: int): (d: DayStats)
    ensures d.date == day && forall c :: Get(d, c) == 0
  {
    DayStats(day, 0, 0, 0)
  }

  /** `dateMap.get(date).<field>++`: exactly one counter goes up by one. */
  function Bump(d: DayStats, c: Counter): (r: DayStats)
    ensures r.date == d.date
    ensures Get(r, c) == Get(d, c) + 1
    ensures forall c' :: c' != c ==> Get(r, c') == Get(d, c')
  {
    match c
    case Logins => d.(logins := d.logins + 1)
    case Registrations => d.(registrations := d.registrations + 1)
    case PasswordChanges => d.(passwordChanges := d.passwordChanges + 1)
  }

  /** One iteration of a `forEach` over `dateMap`: create the zero record if the
      day is new, then bump counter `c` of that day. */
  function Tally(m: map<int, DayStats>, day: int, c: Counter): (r: map<int, DayStats>)
    ensures forall d :: d in r <==> d in m || d == day
    ensures forall d :: d in m && d != day ==> r[d] == m[d]
    ensures r[day] == Bump(if day in m then m[day] else Zero(day), c)
  {
    var m1 := if day in m then m else m[day := Zero(day)];
    m1[day := Bump(m1[day], c)]
  }

  /** Every entry is stored under its own date, as `dateMap.set(date, {date, ...})` does. */
  ghost predicate WellKeyed(m: map<int, DayStats>) {
    forall d :: d in m ==> m[d].date == d
  }

  /** The event times of the three queries that feed the map. */
  datatype Streams = Streams(logins: seq<int>, registrations: seq<int>, passwordChanges: seq<int>)

  function Stream(s: Streams, c: Counter): seq<int> {
    match c
    case Logins => s.logins
    case Registrations => s.registrations
    case PasswordChanges => s.passwordChanges
  }

  /** `s` with one more event `t` on stream `c`. */
  function Extend(s: Streams, c: Counter, t: int): (r: Streams)
    ensures Stream(r, c) == Stream(s, c) + [t]
    ensures forall c' :: c' != c ==> Stream(r, c') == Stream(s, c')
  {
    match c
    case Logins => s.(logins := s.logins + [t])
    case Registrations => s.(registrations := s.registrations + [t])
    case PasswordChanges => s.(passwordChanges := s.passwordChanges + [t])
  }

  /** How many of the times `ts` fall on UTC day `day`. */
  function CountOn(ts: seq<int>, day: int): nat {
    if ts == [] then 0
    else CountOn(ts[..|ts| - 1], day) + (if Clock.UtcDay(ts[|ts| - 1]) == day then 1 else 0)
  }

  /** The UTC days the times `ts` fall on. */
  function Days(ts: seq<int>): set<int> {
    if ts == [] then {} else Days(ts[..|ts| - 1]) + {Clock.UtcDay(ts[|ts| - 1])}
  }

  /** The reference grouping: one entry per day that has at least one event on
      some stream, holding the number of events of each stream on that day. */
  function Buckets(s: Streams): map<int, DayStats> {
    map d | d in Days(s.logins) + Days(s.registrations) + Days(s.passwordChanges)
      :: DayStats(d, CountOn(s.logins, d), CountOn(s.registrations, d), CountOn(s.passwordChanges, d))
  }

  lemma {:induction false} CountOnPositive(ts: seq<int>, day: int)
    ensures CountOn(ts, day) > 0 <==> day in Days(ts)
  {
    if ts != [] {
      CountOnPositive(ts[..|ts| - 1], day);
    }
  }

  /** A day is in the grouping exactly when at least one event falls on it, so
      days without events are left out and every entry has a non-zero counter. */
  lemma OnlyDaysWithEvents(s: Streams, day: int)
    ensures day in Buckets(s) <==> exists c :: CountOn(Stream(s, c), day) > 0
    ensures day in Buckets(s) ==>
      Buckets(s)[day].date == day && forall c :: Get(Buckets(s)[day], c) == CountOn(Stream(s, c), day)
  {
    CountOnPositive(s.logins, day);
    CountOnPositive(s.registrations, day);
    CountOnPositive(s.passwordChanges, day);
    if CountOn(s.logins, day) > 0 {
      assert CountOn(Stream(s, Logins), day) > 0;
    }
    if CountOn(s.registrations, day) > 0 {
      assert CountOn(Stream(s, Registrations), day) > 0;
    }
    if CountOn(s.passwordChanges, day) > 0 {
      assert CountOn(Stream(s, PasswordChanges), day) > 0;
    }
  }

  /** Two entries with the same date and the same three counters are equal. */
  lemma SameStats(a: DayStats, b: DayStats)
    requires a.date == b.date && forall c :: Get(a, c) == Get(b, c)
    ensures a == b
  {
    assert Get(a, Logins) == Get(b, Logins);
    assert Get(a, Registrations) == Get(b, Registrations);
    assert Get(a, PasswordChanges) == Get(b, PasswordChanges);
  }

  /** One more event on stream `c` adds one to that stream's count of its day
      and to no other count. */
  lemma CountOnExtend(s: Streams, c: Counter, t: int, c': Counter, d: int)
    ensures CountOn(Stream(Extend(s, c, t), c'), d)
         == CountOn(Stream(s, c'), d) + (if c' == c && d == Clock.UtcDay(t) then 1 else 0)
  {
    if c' == c {
      var ts := Stream(Extend(s, c, t), c);
      assert ts[..|ts| - 1] == Stream(s, c);
    }
  }

  /** One more event on stream `c` adds its day to the grouping's days, and
      no other day. */
  lemma TallyExtendsDays(s: Streams, c: Counter, t: int, d: int)
    ensures d in Buckets(Extend(s, c, t)) <==> d in Tally(Buckets(s), Clock.UtcDay(t), c)
  {
    var s' := Extend(s, c, t);
    OnlyDaysWithEvents(s, d);
    OnlyDaysWithEvents(s', d);
    forall c' ensures CountOn(Stream(s', c'), d) == CountOn(Stream(s, c'), d) + (if c' == c && d == Clock.UtcDay(t) then 1 else 0) {
      CountOnExtend(s, c, t, c', d);
    }
    if d == Clock.UtcDay(t) {
      assert CountOn(Stream(s', c), d) > 0;
    }
  }

  /** On a day of the extended grouping, its entry is the old entry (or the
      zero record) with counter `c` bumped when the event falls on that day. */
  lemma TallyExtendsEntry(s: Streams, c: Counter, t: int, d: int)
    requires d in Buckets(Extend(s, c, t)) && d in Tally(Buckets(s), Clock.UtcDay(t), c)
    ensures Buckets(Extend(s, c, t))[d] == Tally(Buckets(s), Clock.UtcDay(t), c)[d]
  {
    var s' := Extend(s, c, t);
    var day := Clock.UtcDay(t);
    var m, lhs, rhs := Buckets(s), Buckets(s'), Tally(Buckets(s), day, c);
    OnlyDaysWithEvents(s, d);
    OnlyDaysWithEvents(s', d);
    forall c' ensures Get(lhs[d], c') == Get(rhs[d], c') {
      CountOnExtend(s, c, t, c', d);
      if d == day && day !in m {
        assert CountOn(Stream(s, c'), d) == 0;
      }
    }
    SameStats(lhs[d], rhs[d]);
  }

  /** Recording one more event with a `forEach` iteration gives the grouping of
      the extended streams: the loops compute the reference grouping. */
  lemma TallyExtends(s: Streams, c: Counter, t: int)
    ensures Buckets(Extend(s, c, t)) == Tally(Buckets(s), Clock.UtcDay(t), c)
  {
    var lhs, rhs := Buckets(Extend(s, c, t)), Tally(Buckets(s), Clock.UtcDay(t), c);
    forall d ensures d in lhs <==> d in rhs {
      TallyExtendsDays(s, c, t, d);
    }
    forall d | d in lhs ensures lhs[d] == rhs[d] {
      TallyExtendsEntry(s, c, t, d);
    }
    assert lhs.Keys == rhs.Keys;
  }

  /** The earliest of a non-empty set of days. */
  function EarliestDay(days: set<int>): (d: int)
    requires exists k :: k in days
    ensures d in days && forall k :: k in days ==> d <= k
  {
    HasEarliest(days);
    var d :| d in days && forall k :: k in days ==> d <= k;
    d
  }

  lemma HasEarliest(days: set<int>)
    requires exists k :: k in days
    ensures exists d :: d in days && forall k :: k in days ==> d <= k
  {
    var x :| x in days;
    var d := EarliestFrom(days, x);
  }

  /** Any member of a finite set of days leads to its earliest member. */
  lemma {:induction false} EarliestFrom(days: set<int>, x: int) returns (d: int)
    requires x in days
    ensures d in days && forall k :: k in days ==> d <= k
    decreases days
  {
    var rest := days - {x};
    if y :| y in rest {
      var e := EarliestFrom(rest, y);
      d := if x < e then x else e;
      forall k | k in days ensures d <= k {
        if k != x {
          assert k in rest;
        }
      }
    } else {
      forall k | k in days ensures k == x {
        assert k != x ==> k in rest;
      }
      d := x;
    }
  }

  /** `Array.from(dateMap.values()).sort(by date)`: the entries of the map,
      earliest day first (see `SortedByDate`). */
  function SortByDate(m: map<int, DayStats>): (r: seq<DayStats>)
    ensures forall i :: 0 <= i < |r| ==> r[i] in m.Values
    decreases m.Keys
  {
    if exists k :: k in m then
      var d := EarliestDay(m.Keys);
      var rest := SortByDate(m - {d});
      assert forall i :: 0 <= i < |rest| ==> rest[i] in m.Values by {
        forall i | 0 <= i < |rest| ensures rest[i] in m.Values {
          var k :| k in m - {d} && (m - {d})[k] == rest[i];
          assert k in m && m[k] == rest[i];
        }
      }
      [m[d]] + rest
    else []
  }

  /** The sorted output holds only entries of the map, each under its date. */
  lemma {:induction false} SortedEntriesFromMap(m: map<int, DayStats>)
    requires WellKeyed(m)
    ensures forall i :: 0 <= i < |SortByDate(m)| ==>
      SortByDate(m)[i].date in m && m[SortByDate(m)[i].date] == SortByDate(m)[i]
    decreases m.Keys
  {
    if exists k :: k in m {
      var d := EarliestDay(m.Keys);
      var m' := m - {d};
      SortedEntriesFromMap(m');
      var rest := SortByDate(m');
      var r := SortByDate(m);
      assert r == [m[d]] + rest;
      forall i | 0 < i < |r| ensures r[i].date in m && m[r[i].date] == r[i] {
        var e := rest[i - 1];
        assert r[i] == e;
        assert e.date in m' && m'[e.date] == e;
        assert e.date in m && m[e.date] == m'[e.date];
      }
    }
  }

  /** The sorted output has strictly ascending dates: each date at most once,
      in order. */
  lemma {:induction false} SortedAscending(m: map<int, DayStats>)
    requires WellKeyed(m)
    ensures forall i, j :: 0 <= i < j < |SortByDate(m)| ==> SortByDate(m)[i].date < SortByDate(m)[j].date
    decreases m.Keys
  {
    if exists k :: k in m {
      var d := EarliestDay(m.Keys);
      var m' := m - {d};
      SortedAscending(m');
      SortedEntriesFromMap(m');
      var rest := SortByDate(m');
      var r := SortByDate(m);
      assert r == [m[d]] + rest;
      forall i, j | 0 <= i < j < |r| ensures r[i].date < r[j].date {
        if i == 0 {
          var e := rest[j - 1];
          assert r[j] == e;
          assert e.date in m';
          assert e.date in m.Keys && e.date != d;
          assert r[0].date == d;
        } else {
          assert r[i] == rest[i - 1] && r[j] == rest[j - 1];
        }
      }
    }
  }

  /** The sorted output leaves out no entry of the map. */
  lemma {:induction false} SortedCoversMap(m: map<int, DayStats>)
    requires WellKeyed(m)
    ensures forall d :: d in m ==> m[d] in SortByDate(m)
    decreases m.Keys
  {
    if exists k :: k in m {
      var d := EarliestDay(m.Keys);
      var m' := m - {d};
      SortedCoversMap(m');
      var r := SortByDate(m);
      assert r == [m[d]] + SortByDate(m');
      forall k | k in m ensures m[k] in r {
        if k != d {
          assert k in m' && m'[k] == m[k];
        }
      }
    }
  }

  /** The sum of one counter over `daily_stats`. */
  function ColumnTotal(stats: seq<DayStats>, c: Counter): nat {
    if stats == [] then 0 else Get(stats[0], c) + ColumnTotal(stats[1..], c)
  }

  /** The total over the sorted entries is the earliest day's count plus the
      total over the other days. */
  lemma TotalFromEarliest(m: map<int, DayStats>, c: Counter)
    requires WellKeyed(m) && exists k :: k in m
    ensures var first := EarliestDay(m.Keys);
      ColumnTotal(SortByDate(m), c) == Get(m[first], c) + ColumnTotal(SortByDate(m - {first}), c)
  {
    var first := EarliestDay(m.Keys);
    var r := SortByDate(m);
    assert r == [m[first]] + SortByDate(m - {first});
    assert r[1..] == SortByDate(m - {first});
  }

  /** Over the sorted entries of a map, any one day contributes its own count
      and the rest contribute the total of the map without that day. */
  lemma {:induction false} TotalWithout(m: map<int, DayStats>, day: int, c: Counter)
    requires WellKeyed(m) && day in m
    ensures ColumnTotal(SortByDate(m), c) == Get(m[day], c) + ColumnTotal(SortByDate(m - {day}), c)
    decreases m.Keys
  {
    var first := EarliestDay(m.Keys);
    if first != day {
      var m1 := m - {first};
      var m2 := m - {day};
      TotalFromEarliest(m, c);
      TotalWithout(m1, day, c);
      assert first in m2.Keys;
      var e := EarliestDay(m2.Keys);
      assert e in m.Keys;
      assert e == first;
      TotalFromEarliest(m2, c);
      assert m1 - {day} == m2 - {first};
    } else {
      TotalFromEarliest(m, c);
    }
  }

  /** A `forEach` iteration raises the total of its own counter by one and
      leaves the totals of the other counters unchanged. */
  lemma TallyTotal(m: map<int, DayStats>, day: int, c: Counter, c': Counter)
    requires WellKeyed(m)
    ensures WellKeyed(Tally(m, day, c))
    ensures ColumnTotal(SortByDate(Tally(m, day, c)), c')
         == ColumnTotal(SortByDate(m), c') + (if c' == c then 1 else 0)
  {
    var m' := Tally(m, day, c);
    TotalWithout(m', day, c');
    assert m' - {day} == m - {day};
    if day in m {
      TotalWithout(m, day, c');
    } else {
      assert m - {day} == m;
    }
  }

  /** Conservation: summing a counter over the daily entries gives the number
      of events on its stream; every event lands in exactly one day. */
  lemma {:induction false} Conservation(s: Streams, c: Counter)
    ensures ColumnTotal(SortByDate(Buckets(s)), c) == |Stream(s, c)|
    decreases |s.logins| + |s.registrations| + |s.passwordChanges|
  {
    var last: Counter;
    if s.passwordChanges != [] {
      last := PasswordChanges;
    } else if s.registrations != [] {
      last := Registrations;
    } else if s.logins != [] {
      last := Logins;
    } else {
      assert forall k :: k !in Buckets(s);
      return;
    }
    var ts := Stream(s, last);
    var prev := match last
      case Logins => s.(logins := ts[..|ts| - 1])
      case Registrations => s.(registrations := ts[..|ts| - 1])
      case PasswordChanges => s.(passwordChanges := ts[..|ts| - 1]);
    var t := ts[|ts| - 1];
    var day := Clock.UtcDay(t);
    assert s == Extend(prev, last, t);
    assert |Stream(s, c)| == |Stream(prev, c)| + (if c == last then 1 else 0);
    assert Buckets(s) == Tally(Buckets(prev), day, last) by {
      TallyExtends(prev, last, t);
    }
    assert WellKeyed(Buckets(prev));
    assert ColumnTotal(SortByDate(Tally(Buckets(prev), day, last)), c)
        == ColumnTotal(SortByDate(Buckets(prev)), c) + (if c == last then 1 else 0) by {
      TallyTotal(Buckets(prev), day, last, c);
    }
    Conservation(prev, c);
  }

  /** The body of each `forEach`: add the day's zero record when the day is
      new, then bump the counter in place. */
  method Record(dateMap: map<int, DayStats>, date: int, c: Counter) returns (m: map<int, DayStats>)
    ensures m == Tally(dateMap, date, c)
  {
    m := dateMap;
    if date !in m {
      m := m[date := Zero(date)];
    }
    m := m[date := Bump(m[date], c)];
  }

  /** `s` with stream `c` replaced by `ts`. */
  function WithStream(s: Streams, c: Counter, ts: seq<int>): (r: Streams)
    ensures Stream(r, c) == ts
    ensures forall c' :: c' != c ==> Stream(r, c') == Stream(s, c')
  {
    match c
    case Logins => s.(logins := ts)
    case Registrations => s.(registrations := ts)
    case PasswordChanges => s.(passwordChanges := ts)
  }

  /** One `forEach` over the events of stream `c`, on top of the map built
      from `prior`: afterwards the map is the grouping with those events
      added. */
  method TallyStream(dateMap: map<int, DayStats>, prior: Streams, c: Counter, ts: seq<int>)
    returns (m: map<int, DayStats>)
    requires dateMap == Buckets(prior) && Stream(prior, c) == []
    ensures m == Buckets(WithStream(prior, c, ts))
  {
    m := dateMap;
    assert prior == WithStream(prior, c, ts[..0]);
    for i := 0 to |ts|
      invariant m == Buckets(WithStream(prior, c, ts[..i]))
    {
      m := Record(m, Clock.UtcDay(ts[i]), c);
      TallyExtends(WithStream(prior, c, ts[..i]), c, ts[i]);
      assert ts[..i + 1] == ts[..i] + [ts[i]];
      assert Extend(WithStream(prior, c, ts[..i]), c, ts[i]) == WithStream(prior, c, ts[..i + 1]);
    }
    assert ts[..|ts|] == ts;
  }

  /** The three `forEach` loops over `dateMap` and the final sort. */
  method CollectDailyStats(s: Streams) returns (dailyStats: seq<DayStats>)
    ensures dailyStats == SortByDate(Buckets(s))
    ensures forall c :: ColumnTotal(dailyStats, c) == |Stream(s, c)|
    ensures forall i, j :: 0 <= i < j < |dailyStats| ==> dailyStats[i].date < dailyStats[j].date
  {
    var dateMap: map<int, DayStats> := map[];
    assert dateMap == Buckets(Streams([], [], []));
    dateMap := TallyStream(dateMap, Streams([], [], []), Logins, s.logins);
    dateMap := TallyStream(dateMap, Streams(s.logins, [], []), Registrations, s.registrations);
    dateMap := TallyStream(dateMap, Streams(s.logins, s.registrations, []), PasswordChanges, s.passwordChanges);
    assert WithStream(Streams(s.logins, s.registrations, []), PasswordChanges, s.passwordChanges) == s;
    dailyStats := SortByDate(dateMap);
    SortedAscending(dateMap);
    forall c ensures ColumnTotal(dailyStats, c) == |Stream(s, c)| {
      Conservation(s, c);
    }
  }

  datatype GuestVsRegistered = GuestVsRegistered(guest: nat, registered: nat, total: nat)

  datatype UserAnalyticsReport = UserAnalyticsReport(dailyStats: seq<DayStats>, guestVsRegistered: GuestVsRegistered, period: Window)

  /** The three `findMany` queries of the period, as event times. */
  function StreamsOf(activities: seq<Activity>, audits: seq<AuditEntry>, w: Window): Streams {
    Streams(
      EventTimes(Filter(activities, OfTypeDuring({LoginSuccess}, w))),
      EventTimes(Filter(activities, OfTypeDuring({RegisterEmail, RegisterGoogle}, w))),
      AuditTimes(Filter(audits, AuditDuring(PasswordChanged, w))))
  }

  /** `getUserAnalytics`: the default period is the last 7 days up to `now`. */
  method GetUserAnalytics(activities: seq<Activity>, audits: seq<AuditEntry>, start: Option<int>, end: Option<int>, now: int)
    returns (r: UserAnalyticsReport)
    ensures r.period == Period(start, end, now, 7)
    ensures r.dailyStats == SortByDate(Buckets(StreamsOf(activities, audits, r.period)))
    ensures ColumnTotal(r.dailyStats, Logins) == Count(activities, OfTypeDuring({LoginSuccess}, r.period))
    ensures ColumnTotal(r.dailyStats, Registrations)
         == Count(activities, OfTypeDuring({RegisterEmail, RegisterGoogle}, r.period))
    ensures ColumnTotal(r.dailyStats, PasswordChanges) == Count(audits, AuditDuring(PasswordChanged, r.period))
    ensures r.guestVsRegistered.guest == Count(activities, ByGuestDuring(true, r.period))
    ensures r.guestVsRegistered.registered == Count(activities, ByGuestDuring(false, r.period))
    ensures r.guestVsRegistered.total == r.guestVsRegistered.guest + r.guestVsRegistered.registered
    ensures r.guestVsRegistered.total == Count(activities, AnyDuring(r.period))
  {
    var w := Period(start, end, now, 7);
    var s := StreamsOf(activities, audits, w);
    var dailyStats := CollectDailyStats(s);
    assert Stream(s, Logins) == s.logins;
    assert Stream(s, Registrations) == s.registrations;
    assert Stream(s, PasswordChanges) == s.passwordChanges;
    var guestCount := Count(activities, ByGuestDuring(true, w));
    var registeredCount := Count(activities, ByGuestDuring(false, w));
    GuestSplit(activities, w);
    r := UserAnalyticsReport(dailyStats, GuestVsRegistered(guestCount, registeredCount, guestCount + registeredCount), w);
  }
}
