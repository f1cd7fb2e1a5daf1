/** The conversion funnel: five stage counts over one reporting period, the
    drop-off from each stage to the next, and the overall conversion. */
module Funnel {
  import opened Store

  datatype Stage = Visitors | RegisteredUsers | AddedToCart | CheckoutStage | PaymentSucceeded

  /** The `step` label the response carries for each stage. */
  function StepName(s: Stage): string {
    match s
    case Visitors => "Visitors"
    case RegisteredUsers => "Registered Users"
    case AddedToCart => "Added to Cart"
    case CheckoutStage => "Checkout Started"
    case PaymentSucceeded => "Payment Success"
  }

  const StageOrder: seq<Stage> := [Visitors, RegisteredUsers, AddedToCart, CheckoutStage, PaymentSucceeded]

  datatype FunnelStep = FunnelStep(step: string, count: nat, dropOff: int)

  datatype StageCounts = StageCounts(visitors: nat, registered: nat, addedToCart: nat, checkoutStarted: nat, paymentSuccess: nat)

  /** A funnel report; `overallConversion` is in hundredths of a percent (the
      response carries it divided by 100). */
  datatype FunnelReport = FunnelReport(funnel: seq<FunnelStep>, overallConversion: int, period: Window)

  function CountAt(c: StageCounts, k: nat): nat
    requires k < 5
  {
    [c.visitors, c.registered, c.addedToCart, c.checkoutStarted, c.paymentSuccess][k]
  }

  /** `calculateDropOff(current, previous)`: 0 when `previous` is 0, else
      `Math.round` of the percentage lost. The model rounds the exact ratio
      100 * (previous - current) / previous, halves up; the code rounds a
      double, which can differ at a half (see the README). There is no
      clamping: a stage larger than the one before gives a value <= 0. */
  function DropOff(current: nat, previous: nat): (r: int)
    ensures previous == 0 ==> r == 0
    ensures previous > 0 ==>
      2 * previous * r - previous <= 200 * (previous - current) < 2 * previous * r + previous
  {
    if previous == 0 then 0
    else
      var n, d := 200 * (previous - current) + previous, 2 * previous;
      DivBounds(n, d);
      n / d
  }

  lemma DivBounds(n: int, d: int)
    requires d > 0
    ensures d * (n / d) <= n < d * (n / d) + d
  {
  }

  /** When a stage keeps at most the count of the stage before, its drop-off is
      a percentage between 0 and 100. */
  lemma DropOffInRange(current: nat, previous: nat)
    requires current <= previous
    ensures 0 <= DropOff(current, previous) <= 100
  {
    if previous > 0 {
      var r := DropOff(current, previous);
      if r < 0 {
        MulLess(previous, r, 0);
      }
      if r > 100 {
        MulLess(previous, 101, r);
      }
    }
  }

  /** A stage larger than the one before is not clamped: its drop-off is at most
      0, and strictly negative exactly when the growth exceeds half a percent. */
  lemma DropOffOfGrowth(current: nat, previous: nat)
    requires current > previous
    ensures DropOff(current, previous) <= 0
    ensures DropOff(current, previous) < 0 <==> previous > 0 && 200 * (current - previous) > previous
  {
    if previous > 0 {
      var r := DropOff(current, previous);
      if r > 0 {
        MulLess(previous, 1, r);
      }
      if r < 0 {
        MulLess(previous, r, 0);
      } else {
        MulLess(previous, 0, r + 1);
        MulLess(previous, -1, r);
      }
    }
  }

  lemma MulLess(p: int, a: int, b: int)
    requires p > 0 && a <= b
    ensures p * a <= p * b
  {
  }

  /** The literal `funnel` array: five steps in fixed order, each with its count,
      the first with drop-off 0 and every other one measured against the step
      before it. */
  function BuildFunnel(c: StageCounts): (f: seq<FunnelStep>)
    ensures |f| == 5
    ensures forall k :: 0 <= k < 5 ==> f[k].step == StepName(StageOrder[k]) && f[k].count == CountAt(c, k)
    ensures f[0].dropOff == 0
    ensures forall k :: 1 <= k < 5 ==> f[k].dropOff == DropOff(f[k].count, f[k - 1].count)
  {
    [ FunnelStep(StepName(Visitors), c.visitors, 0),
      FunnelStep(StepName(RegisteredUsers), c.registered, DropOff(c.registered, c.visitors)),
      FunnelStep(StepName(AddedToCart), c.addedToCart, DropOff(c.addedToCart, c.registered)),
      FunnelStep(StepName(CheckoutStage), c.checkoutStarted, DropOff(c.checkoutStarted, c.addedToCart)),
      FunnelStep(StepName(PaymentSucceeded), c.paymentSuccess, DropOff(c.paymentSuccess, c.checkoutStarted)) ]
  }

  /** `overall_conversion` in hundredths of a percent: 0 without visitors (no
      division by zero), else `paymentSuccess / visitors * 100` rounded to two
      decimals as `toFixed(2)` does, halves up. */
  function OverallConversion(visitors: nat, paymentSuccess: nat): (h: int)
    ensures visitors == 0 ==> h == 0
    ensures visitors > 0 ==>
      2 * visitors * h - visitors <= 20000 * paymentSuccess < 2 * visitors * h + visitors
  {
    if visitors > 0 then
      var n, d := 20000 * paymentSuccess + visitors, 2 * visitors;
      DivBounds(n, d);
      n / d
    else 0
  }

  /** Conversion is never negative, and at most 100.00 % while payments do not
      outnumber visitors. */
  lemma ConversionInRange(visitors: nat, paymentSuccess: nat)
    ensures OverallConversion(visitors, paymentSuccess) >= 0
    ensures paymentSuccess <= visitors ==> OverallConversion(visitors, paymentSuccess) <= 10000
  {
    if visitors > 0 {
      var h := OverallConversion(visitors, paymentSuccess);
      if h < 0 {
        MulLess(visitors, h, -1);
      }
      if paymentSuccess <= visitors && h > 10000 {
        MulLess(visitors, 10001, h);
        MulLess(visitors, paymentSuccess, visitors);
      }
    }
  }

  /** When every stage keeps at most the count of the stage before, every
      drop-off is a percentage between 0 and 100. */
  lemma NarrowingFunnelInRange(c: StageCounts)
    requires c.registered <= c.visitors && c.addedToCart <= c.registered
    requires c.checkoutStarted <= c.addedToCart && c.paymentSuccess <= c.checkoutStarted
    ensures forall k :: 0 <= k < 5 ==> 0 <= BuildFunnel(c)[k].dropOff <= 100
  {
    DropOffInRange(c.registered, c.visitors);
    DropOffInRange(c.addedToCart, c.registered);
    DropOffInRange(c.checkoutStarted, c.addedToCart);
    DropOffInRange(c.paymentSuccess, c.checkoutStarted);
  }

  /** The five counts of `getFunnel` over period `w`. */
  function StageCountsOf(sessions: seq<Session>, activities: seq<Activity>, w: Window): (c: StageCounts)
    ensures c.registered <= c.visitors
    ensures c.visitors <= |sessions| && c.addedToCart + c.checkoutStarted + c.paymentSuccess <= |activities|
  {
    CountMonotone(sessions, MemberLoggedInDuring(w), LoggedInDuring(w));
    CountDisjoint3(activities, OfTypeDuring({AddToCart}, w), OfTypeDuring({EventType.CheckoutStarted}, w), OfTypeDuring({PaymentSuccess}, w));
    StageCounts(
      Count(sessions, LoggedInDuring(w)),
      Count(sessions, MemberLoggedInDuring(w)),
      Count(activities, OfTypeDuring({AddToCart}, w)),
      Count(activities, OfTypeDuring({EventType.CheckoutStarted}, w)),
      Count(activities, OfTypeDuring({PaymentSuccess}, w)))
  }

  /** `getFunnel`: the default period is the last 30 days up to `now`. */
  function GetFunnel(sessions: seq<Session>, activities: seq<Activity>, start: Option<int>, end: Option<int>, now: int): (r: FunnelReport)
    ensures r.period == Period(start, end, now, 30)
    ensures |r.funnel| == 5
    ensures r.funnel[0].count == Count(sessions, LoggedInDuring(r.period))
    ensures r.funnel[1].count == Count(sessions, MemberLoggedInDuring(r.period))
    ensures r.funnel[2].count == Count(activities, OfTypeDuring({AddToCart}, r.period))
    ensures r.funnel[3].count == Count(activities, OfTypeDuring({EventType.CheckoutStarted}, r.period))
    ensures r.funnel[4].count == Count(activities, OfTypeDuring({PaymentSuccess}, r.period))
    ensures forall k :: 0 <= k < 5 ==> r.funnel[k].step == StepName(StageOrder[k])
    ensures r.funnel[0].dropOff == 0
    ensures forall k :: 1 <= k < 5 ==> r.funnel[k].dropOff == DropOff(r.funnel[k].count, r.funnel[k - 1].count)
    ensures r.overallConversion == OverallConversion(r.funnel[0].count, r.funnel[4].count)
  {
    var w := Period(start, end, now, 30);
    var c := StageCountsOf(sessions, activities, w);
    FunnelReport(BuildFunnel(c), OverallConversion(c.visitors, c.paymentSuccess), w)
  }

  /** Registered users are a subset of the visitors' sessions, so the second
      stage's drop-off is always between 0 and 100, whatever the data. */
  lemma RegisteredDropOffInRange(sessions: seq<Session>, activities: seq<Activity>, start: Option<int>, end: Option<int>, now: int)
    ensures 0 <= GetFunnel(sessions, activities, start, end, now).funnel[1].dropOff <= 100
  {
    var w := Period(start, end, now, 30);
    CountMonotone(sessions, MemberLoggedInDuring(w), LoggedInDuring(w));
    var c := StageCountsOf(sessions, activities, w);
    DropOffInRange(c.registered, c.visitors);
  }

  /** A report always has five steps in the fixed order, whatever the data. */
  lemma FunnelShape(sessions: seq<Session>, activities: seq<Activity>, start: Option<int>, end: Option<int>, now: int)
    ensures var r := GetFunnel(sessions, activities, start, end, now);
      |r.funnel| == 5 && forall k :: 0 <= k < 5 ==> r.funnel[k].step == StepName(StageOrder[k])
  {
  }

  /** With no recorded data every count, drop-off and the conversion are 0. */
  lemma EmptyStoreFunnel(start: Option<int>, end: Option<int>, now: int)
    ensures var r := GetFunnel([], [], start, end, now);
      r.overallConversion == 0 &&
      forall k :: 0 <= k < 5 ==> r.funnel[k].count == 0 && r.funnel[k].dropOff == 0
  {
  }

  /** 100 visitors, 50 registered, 10 carts, 4 checkouts and 2 payments give
      drop-offs 0, 50, 80, 60, 50 and an overall conversion of 2.00 %. */
  lemma WorkedExample()
    ensures var f := BuildFunnel(StageCounts(100, 50, 10, 4, 2));
      f[0].dropOff == 0 && f[1].dropOff == 50 && f[2].dropOff == 80 && f[3].dropOff == 60 && f[4].dropOff == 50
    ensures OverallConversion(100, 2) == 200
  {
  }
}
