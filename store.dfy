/** The records the analytics controller reads, and its queries over them.

    The database is a point-in-time snapshot: one sequence per table. A
    `count` query is the length of a filter over a table, a `findMany` query
    is the filter itself, in the table's order. */
module Store {

  datatype Option<T> = None | Some(value: T) {
    function GetOr(default: T): T {
      match this
      case Some(v) => v
      case None => default
    }
  }

  /** The `event_type` column of `user_activity`; types the controller never
      asks for are `Other`. */
  datatype EventType =
    | LoginSuccess
    | RegisterEmail
    | RegisterGoogle
    | AddToCart
    | CheckoutStarted
    | PaymentSuccess
    | PaymentFailed
    | Other(name: string)

  /** The `action_type` column of `user_audit_log`. */
  datatype AuditAction = PasswordChanged | OtherAction(name: string)

  /** The `amount` column as the revenue accumulators see it: SQL null, a
      value `parseFloat` reads as the number `value` (a decimal object, a
      number, or a string with a numeric prefix), or a string `parseFloat`
      reads as NaN. */
  datatype Amount = NullAmount | Numeric(value: real) | Unparseable

  /** A row of `user_sessions`. */
  datatype Session = Session(loginTime: int, logoutTime: Option<int>, lastSeenAt: int, isGuest: bool)

  /** A row of `user_activity`. */
  datatype Activity = Activity(eventType: EventType, eventTime: int, isGuest: bool, amount: Amount)

  /** A row of `user_audit_log`. */
  datatype AuditEntry = AuditEntry(actionType: AuditAction, createdAt: int)

  /** A time filter: `{gte: lo, lt: hi}` or `{gte: lo, lte: hi}`. */
  datatype Window = HalfOpen(lo: int, hi: int) | Closed(lo: int, hi: int) {
    predicate Contains(t: int) {
      match this
      case HalfOpen(lo, hi) => lo <= t < hi
      case Closed(lo, hi) => lo <= t <= hi
    }
  }

  /** The reporting period of the funnel and user-analytics queries: the given
      bounds, else the last `defaultDays` days up to `now`, both ends included. */
  function Period(start: Option<int>, end: Option<int>, now: int, defaultDays: nat): (w: Window)
    ensures w.Closed?
    ensures start.Some? ==> w.lo == start.value
    ensures start.None? ==> w.lo == now - defaultDays * 86_400_000
    ensures end.Some? ==> w.hi == end.value
    ensures end.None? ==> w.hi == now
  {
    Closed(start.GetOr(now - defaultDays * 86_400_000), end.GetOr(now))
  }

  /** The rows of `s` that satisfy `p`, in their order. */
  function Filter<T>(s: seq<T>, p: T -> bool): (r: seq<T>)
    ensures |r| <= |s|
    ensures forall x :: x in r ==> x in s && p(x)
    ensures forall i :: 0 <= i < |s| && p(s[i]) ==> s[i] in r
  {
    if s == [] then []
    else if p(s[0]) then [s[0]] + Filter(s[1..], p)
    else Filter(s[1..], p)
  }

  /** A `findMany` keeps every matching row as often as the table holds it,
      and no other row: identical rows are not merged. */
  lemma {:induction false} FilterMultiplicity<T>(s: seq<T>, p: T -> bool)
    ensures forall x :: multiset(Filter(s, p))[x] == if p(x) then multiset(s)[x] else 0
  {
    if s != [] {
      FilterMultiplicity(s[1..], p);
      assert s == [s[0]] + s[1..];
    }
  }

  function Count<T>(s: seq<T>, p: T -> bool): nat {
    |Filter(s, p)|
  }

  /** A stricter filter never counts more rows. */
  lemma {:induction false} CountMonotone<T>(s: seq<T>, p: T -> bool, q: T -> bool)
    requires forall x :: p(x) ==> q(x)
    ensures Count(s, p) <= Count(s, q)
  {
    if s != [] {
      CountMonotone(s[1..], p, q);
    }
  }

  /** When every row `whole` keeps satisfies exactly one of `yes` and `no`, the
      two counts add up to the count of `whole`. */
  lemma {:induction false} CountSplit<T>(s: seq<T>, whole: T -> bool, yes: T -> bool, no: T -> bool)
    requires forall x :: whole(x) <==> yes(x) || no(x)
    requires forall x :: !(yes(x) && no(x))
    ensures Count(s, whole) == Count(s, yes) + Count(s, no)
  {
    if s != [] {
      CountSplit(s[1..], whole, yes, no);
    }
  }

  /** Three filters no row satisfies two of at once count no more rows than
      the table holds. */
  lemma {:induction false} CountDisjoint3<T>(s: seq<T>, a: T -> bool, b: T -> bool, c: T -> bool)
    requires forall x :: !(a(x) && b(x)) && !(a(x) && c(x)) && !(b(x) && c(x))
    ensures Count(s, a) + Count(s, b) + Count(s, c) <= |s|
  {
    if s != [] {
      CountDisjoint3(s[1..], a, b, c);
    }
  }

  // The `where` clauses of the controller's queries.

  /** Sessions whose `login_time` lies in `w`. */
  function LoggedInDuring(w: Window): Session -> bool {
    (s: Session) => w.Contains(s.loginTime)
  }

  /** Sessions whose `login_time` lies in `w` and with `is_guest = false`. */
  function MemberLoggedInDuring(w: Window): Session -> bool {
    (s: Session) => w.Contains(s.loginTime) && !s.isGuest
  }

  /** Sessions not logged out and seen at or after `cutoff`. */
  function ActiveSince(cutoff: int): Session -> bool {
    (s: Session) => s.logoutTime.None? && s.lastSeenAt >= cutoff
  }

  /** Activity whose type is one of `types` and whose `event_time` lies in `w`. */
  function OfTypeDuring(types: set<EventType>, w: Window): Activity -> bool {
    (a: Activity) => a.eventType in types && w.Contains(a.eventTime)
  }

  /** `p` with the extra condition `amount: {not: null}`. */
  function Priced(p: Activity -> bool): Activity -> bool {
    (a: Activity) => p(a) && a.amount != NullAmount
  }

  /** Activity of any type in `w` with `is_guest = guest`. */
  function ByGuestDuring(guest: bool, w: Window): Activity -> bool {
    (a: Activity) => w.Contains(a.eventTime) && a.isGuest == guest
  }

  /** Activity of any type in `w`. */
  function AnyDuring(w: Window): Activity -> bool {
    (a: Activity) => w.Contains(a.eventTime)
  }

  /** Audit entries of `action` whose `created_at` lies in `w`. */
  function AuditDuring(action: AuditAction, w: Window): AuditEntry -> bool {
    (e: AuditEntry) => e.actionType == action && w.Contains(e.createdAt)
  }

  /** The `event_time` of each row, in order. */
  function EventTimes(acts: seq<Activity>): (ts: seq<int>)
    ensures |ts| == |acts|
    ensures forall i :: 0 <= i < |acts| ==> ts[i] == acts[i].eventTime
  {
    if acts == [] then [] else [acts[0].eventTime] + EventTimes(acts[1..])
  }

  /** The `created_at` of each row, in order. */
  function AuditTimes(entries: seq<AuditEntry>): (ts: seq<int>)
    ensures |ts| == |entries|
    ensures forall i :: 0 <= i < |entries| ==> ts[i] == entries[i].createdAt
  {
    if entries == [] then [] else [entries[0].createdAt] + AuditTimes(entries[1..])
  }

  /** Guests and members partition the activity of a period. */
  lemma GuestSplit(acts: seq<Activity>, w: Window)
    ensures Count(acts, ByGuestDuring(true, w)) + Count(acts, ByGuestDuring(false, w)) == Count(acts, AnyDuring(w))
  {
    CountSplit(acts, AnyDuring(w), ByGuestDuring(true, w), ByGuestDuring(false, w));
  }
}
