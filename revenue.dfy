/** The revenue accumulators of the overview and the revenue trend: start at
    zero, skip falsy amounts, and add `parseFloat(amount) || 0` for the rest. */
module Revenue {
  import opened Store

  /** What one event adds to the running total. A null amount is skipped by
      `if (event.amount)`; a zero amount is skipped too and would add 0 anyway;
      an amount `parseFloat` reads as NaN adds `NaN || 0`, that is 0. */
  function Contribution(a: Amount): (r: real)
    ensures r != 0.0 ==> a.Numeric?
    ensures a.Numeric? ==> r == a.value
  {
    match a
    case NullAmount => 0.0
    case Numeric(v) => v
    case Unparseable => 0.0
  }

  /** The total the accumulator reaches over `events`. */
  function Revenue(events: seq<Activity>): real {
    if events == [] then 0.0 else Contribution(events[0].amount) + Revenue(events[1..])
  }

  /** The `forEach` accumulator: `revenue += amount || 0` for each event with
      a truthy amount. */
  method SumRevenue(events: seq<Activity>) returns (total: real)
    ensures total == Revenue(events)
  {
    total := 0.0;
    var i := 0;
    while i < |events|
      invariant 0 <= i <= |events|
      invariant total == Revenue(events[..i])
    {
      var amount := events[i].amount;
      if amount != NullAmount && amount != Numeric(0.0) {
        var parsed := if amount.Numeric? then amount.value else 0.0;
        total := total + parsed;
      }
      RevenueAppend(events[..i], [events[i]]);
      assert events[..i + 1] == events[..i] + [events[i]];
      i := i + 1;
    }
    assert events[..i] == events;
  }

  /** The total over two batches is the sum of their totals. */
  lemma {:induction false} RevenueAppend(xs: seq<Activity>, ys: seq<Activity>)
    ensures Revenue(xs + ys) == Revenue(xs) + Revenue(ys)
  {
    if xs == [] {
      assert xs + ys == ys;
    } else {
      assert (xs + ys)[1..] == xs[1..] + ys;
      RevenueAppend(xs[1..], ys);
    }
  }

  /** An event whose amount is null or does not parse adds nothing, wherever
      it stands in the batch. */
  lemma UnpricedEventAddsNothing(xs: seq<Activity>, e: Activity, ys: seq<Activity>)
    requires !e.amount.Numeric?
    ensures Revenue(xs + [e] + ys) == Revenue(xs + ys)
  {
    RevenueAppend(xs + [e], ys);
    RevenueAppend(xs, [e]);
    RevenueAppend(xs, ys);
    assert Revenue([e]) == 0.0 by { assert [e][1..] == []; }
  }

  /** Taking one event out of a batch takes its contribution off the total. */
  lemma RevenueRemove(ys: seq<Activity>, j: int)
    requires 0 <= j < |ys|
    ensures Revenue(ys) == Contribution(ys[j].amount) + Revenue(ys[..j] + ys[j + 1..])
  {
    assert ys == ys[..j] + ([ys[j]] + ys[j + 1..]);
    RevenueAppend(ys[..j], [ys[j]] + ys[j + 1..]);
    RevenueAppend([ys[j]], ys[j + 1..]);
    RevenueAppend(ys[..j], ys[j + 1..]);
  }

  /** Taking the same element out of two permutations of each other leaves
      permutations of each other. */
  lemma PermutationWithout<T>(xs: seq<T>, ys: seq<T>, j: int)
    requires multiset(xs) == multiset(ys)
    requires xs != [] && 0 <= j < |ys| && ys[j] == xs[0]
    ensures multiset(xs[1..]) == multiset(ys[..j] + ys[j + 1..])
  {
    assert xs == [xs[0]] + xs[1..];
    assert ys == ys[..j] + [ys[j]] + ys[j + 1..];
    assert multiset(xs[1..]) == multiset(xs) - multiset{xs[0]};
  }

  lemma IndexOf<T>(ys: seq<T>, x: T) returns (j: int)
    requires x in multiset(ys)
    ensures 0 <= j < |ys| && ys[j] == x
  {
    j :| 0 <= j < |ys| && ys[j] == x;
  }

  /** The total does not depend on the order the database returns events in. */
  lemma {:induction false} RevenuePermutation(xs: seq<Activity>, ys: seq<Activity>)
    requires multiset(xs) == multiset(ys)
    ensures Revenue(xs) == Revenue(ys)
    decreases |xs|
  {
    if xs == [] {
      assert |ys| == |multiset(ys)| == 0;
      assert ys == [];
    } else {
      var j := IndexOf(ys, xs[0]);
      PermutationWithout(xs, ys, j);
      RevenuePermutation(xs[1..], ys[..j] + ys[j + 1..]);
      RevenueRemove(ys, j);
      assert Revenue(xs) == Contribution(xs[0].amount) + Revenue(xs[1..]);
    }
  }

  /** Filtering out null amounts (`amount: {not: null}`) leaves the total
      unchanged: null amounts contribute nothing. */
  lemma {:induction false} NullAmountsAddNothing(events: seq<Activity>, p: Activity -> bool)
    ensures Revenue(Filter(events, Priced(p))) == Revenue(Filter(events, p))
  {
    if events != [] {
      NullAmountsAddNothing(events[1..], p);
    }
  }

  /** When every amount that parses is non-negative, so is the total. */
  lemma {:induction false} RevenueNonNegative(events: seq<Activity>)
    requires forall i :: 0 <= i < |events| && events[i].amount.Numeric? ==> events[i].amount.value >= 0.0
    ensures Revenue(events) >= 0.0
  {
    if events != [] {
      RevenueNonNegative(events[1..]);
    }
  }

  /** Summing 10, "20.50" and null gives 30.5. */
  lemma MixedAmountsExample(t: int)
    ensures Revenue([Activity(PaymentSuccess, t, false, Numeric(10.0)),
                     Activity(PaymentSuccess, t, false, Numeric(20.5)),
                     Activity(PaymentSuccess, t, false, NullAmount)]) == 30.5
  {
    var a := Activity(PaymentSuccess, t, false, Numeric(10.0));
    var b := Activity(PaymentSuccess, t, false, Numeric(20.5));
    var c := Activity(PaymentSuccess, t, false, NullAmount);
    assert Revenue([c]) == 0.0 by { assert [c][1..] == []; }
    assert Revenue([b, c]) == 20.5 by { assert [b, c][1..] == [c]; }
    assert [a, b, c][1..] == [b, c];
  }
}
