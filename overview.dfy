/** `getOverview`: today's snapshot metrics over a half-open local day. */
module Overview {
  import opened Store
  import Clock
  import Revenue

  /** A session counts as active when it was seen within this many ms of now. */
  const ActiveWindowMs: int := 300_000

  datatype OverviewData = OverviewData(
    visitorsToday: nat,
    loggedInUsersToday: nat,
    activeUsersNow: nat,
    revenueToday: real,
    ordersToday: nat,
    refundsToday: nat)

  /** `[today, tomorrow)`: from the last local midnight to the next one. */
  function Today(now: int, utcOffsetMs: int): (w: Window)
    ensures w.HalfOpen? && w.Contains(now) && w.hi - w.lo == 86_400_000
    ensures w.lo == Clock.LocalMidnight(now, utcOffsetMs)
  {
    var today := Clock.LocalMidnight(now, utcOffsetMs);
    HalfOpen(today, today + 86_400_000)
  }

  /** Payments of either outcome during `w`. */
  function PaymentDuring(w: Window): Activity -> bool {
    OfTypeDuring({PaymentSuccess, PaymentFailed}, w)
  }

  /** The six metrics, each as the query the controller sends; `now` is read
      once and serves both the day window and the activity cutoff. */
  function OverviewOf(sessions: seq<Session>, activities: seq<Activity>, now: int, utcOffsetMs: int): (o: OverviewData)
    ensures o.loggedInUsersToday <= o.visitorsToday <= |sessions|
    ensures o.activeUsersNow <= |sessions|
    ensures o.ordersToday + o.refundsToday <= |activities|
  {
    var w := Today(now, utcOffsetMs);
    CountMonotone(sessions, MemberLoggedInDuring(w), LoggedInDuring(w));
    CountSplit(activities, PaymentDuring(w), OfTypeDuring({PaymentSuccess}, w), OfTypeDuring({PaymentFailed}, w));
    OverviewData(
      Count(sessions, LoggedInDuring(w)),
      Count(sessions, MemberLoggedInDuring(w)),
      Count(sessions, ActiveSince(now - ActiveWindowMs)),
      Revenue.Revenue(Filter(activities, Priced(OfTypeDuring({PaymentSuccess}, w)))),
      Count(activities, OfTypeDuring({PaymentSuccess}, w)),
      Count(activities, OfTypeDuring({PaymentFailed}, w)))
  }

  /** `getOverview`: the counts come from the store, the revenue from the
      `revenueToday` accumulator over the priced payments of today. */
  method GetOverview(sessions: seq<Session>, activities: seq<Activity>, now: int, utcOffsetMs: int)
    returns (o: OverviewData)
    ensures o == OverviewOf(sessions, activities, now, utcOffsetMs)
    ensures o.loggedInUsersToday <= o.visitorsToday
  {
    var w := Today(now, utcOffsetMs);
    var visitorsToday := Count(sessions, LoggedInDuring(w));
    var loggedInUsersToday := Count(sessions, MemberLoggedInDuring(w));
    var activeUsersNow := Count(sessions, ActiveSince(now - ActiveWindowMs));
    var revenueEvents := Filter(activities, Priced(OfTypeDuring({PaymentSuccess}, w)));
    var revenueToday := Revenue.SumRevenue(revenueEvents);
    var ordersToday := Count(activities, OfTypeDuring({PaymentSuccess}, w));
    var refundsToday := Count(activities, OfTypeDuring({PaymentFailed}, w));
    o := OverviewData(visitorsToday, loggedInUsersToday, activeUsersNow, revenueToday, ordersToday, refundsToday);
    LoggedInAtMostVisitors(sessions, activities, now, utcOffsetMs);
  }

  /** Logged-in users are the visitors' sessions with `is_guest = false`, so
      there are never more of them than visitors. */
  lemma LoggedInAtMostVisitors(sessions: seq<Session>, activities: seq<Activity>, now: int, utcOffsetMs: int)
    ensures OverviewOf(sessions, activities, now, utcOffsetMs).loggedInUsersToday
         <= OverviewOf(sessions, activities, now, utcOffsetMs).visitorsToday
  {
    var w := Today(now, utcOffsetMs);
    CountMonotone(sessions, MemberLoggedInDuring(w), LoggedInDuring(w));
  }

  /** Orders count every payment of today, priced or not; revenue sums only the
      priced ones, which are no more than the orders, and still equals the sum
      over all of today's payments because a null amount adds nothing. */
  lemma RevenueAgainstOrders(sessions: seq<Session>, activities: seq<Activity>, now: int, utcOffsetMs: int)
    ensures var w := Today(now, utcOffsetMs);
      var o := OverviewOf(sessions, activities, now, utcOffsetMs);
      && Count(activities, Priced(OfTypeDuring({PaymentSuccess}, w))) <= o.ordersToday
      && o.revenueToday == Revenue.Revenue(Filter(activities, OfTypeDuring({PaymentSuccess}, w)))
  {
    var w := Today(now, utcOffsetMs);
    var paid := OfTypeDuring({PaymentSuccess}, w);
    CountMonotone(activities, Priced(paid), paid);
    Revenue.NullAmountsAddNothing(activities, paid);
  }

  /** A day without data reports six zeros, never an absent value. */
  lemma EmptyDay(now: int, utcOffsetMs: int)
    ensures OverviewOf([], [], now, utcOffsetMs) == OverviewData(0, 0, 0, 0.0, 0, 0)
  {
  }

  /** Active-now is not limited to today's sessions: a session that started
      before today's midnight and is still open counts as active without
      counting as a visitor of today. */
  lemma ActiveNotBoundedByVisitors(now: int, utcOffsetMs: int)
    ensures var s := Session(Clock.LocalMidnight(now, utcOffsetMs) - 1, None, now, false);
      var o := OverviewOf([s], [], now, utcOffsetMs);
      o.activeUsersNow == 1 && o.visitorsToday == 0
  {
    var s := Session(Clock.LocalMidnight(now, utcOffsetMs) - 1, None, now, false);
    assert [s][1..] == [];
  }
}
