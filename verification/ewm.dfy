/**
  Exponential weighting with pandas' `ewm(span=s, adjust=False).mean()`.

  With `adjust=False` the average is a first-order recurrence seeded by the
  first value: e[0] = x[0] and e[i] = alpha * x[i] + (1 - alpha) * e[i-1],
  where alpha = 2 / (span + 1). Every position is defined.
 */
module Ewm {
  import opened Columns

  /** The smoothing factor pandas derives from `span`; pandas rejects a span below 1. */
  function Alpha(span: nat): (a: real)
    requires span >= 1
    ensures 0.0 < a <= 1.0
  {
    2.0 / (span + 1) as real
  }

  /** A longer span gives a smaller smoothing factor. */
  lemma AlphaDecreasing(s: nat, t: nat)
    requires 1 <= s < t
    ensures Alpha(s) > Alpha(t)
  {
    var p, q := (s + 1) as real, (t + 1) as real;
    assert Alpha(s) - Alpha(t) == 2.0 * (q - p) / (p * q);
    assert p * q > 0.0;
  }

  function EmaAt(xs: seq<real>, alpha: real, i: nat): real
    requires i < |xs|
  {
    if i == 0 then xs[0] else alpha * xs[i] + (1.0 - alpha) * EmaAt(xs, alpha, i - 1)
  }

  lemma EmaStep(xs: seq<real>, alpha: real, i: nat)
    requires 0 < i < |xs|
    ensures EmaAt(xs, alpha, i) == alpha * xs[i] + (1.0 - alpha) * EmaAt(xs, alpha, i - 1)
  {
  }

  /** `xs.ewm(span=span, adjust=False).mean()` */
  function Ema(xs: seq<real>, span: nat): (r: seq<real>)
    requires span >= 1
    ensures |r| == |xs|
  {
    seq(|xs|, i requires 0 <= i < |xs| => EmaAt(xs, Alpha(span), i))
  }

  /** A convex combination of two points at or above lo stays at or above lo. */
  lemma ConvexCombinationAbove(alpha: real, x: real, e: real, lo: real)
    requires 0.0 <= alpha <= 1.0 && lo <= x && lo <= e
    ensures lo <= alpha * x + (1.0 - alpha) * e
  {
    MulNonNegative(alpha, x - lo);
    MulNonNegative(1.0 - alpha, e - lo);
    assert alpha * x + (1.0 - alpha) * e - lo == alpha * (x - lo) + (1.0 - alpha) * (e - lo);
  }

  /** A convex combination of two points at or below hi stays at or below hi. */
  lemma ConvexCombinationBelow(alpha: real, x: real, e: real, hi: real)
    requires 0.0 <= alpha <= 1.0 && x <= hi && e <= hi
    ensures alpha * x + (1.0 - alpha) * e <= hi
  {
    MulNonNegative(alpha, hi - x);
    MulNonNegative(1.0 - alpha, hi - e);
    assert hi - (alpha * x + (1.0 - alpha) * e) == alpha * (hi - x) + (1.0 - alpha) * (hi - e);
  }

  lemma {:induction false} EmaAtAbove(xs: seq<real>, alpha: real, i: nat, lo: real)
    requires 0.0 <= alpha <= 1.0 && i < |xs|
    requires forall k :: 0 <= k <= i ==> lo <= xs[k]
    ensures lo <= EmaAt(xs, alpha, i)
  {
    if i > 0 {
      EmaAtAbove(xs, alpha, i - 1, lo);
      ConvexCombinationAbove(alpha, xs[i], EmaAt(xs, alpha, i - 1), lo);
    }
  }

  lemma {:induction false} EmaAtBelow(xs: seq<real>, alpha: real, i: nat, hi: real)
    requires 0.0 <= alpha <= 1.0 && i < |xs|
    requires forall k :: 0 <= k <= i ==> xs[k] <= hi
    ensures EmaAt(xs, alpha, i) <= hi
  {
    if i > 0 {
      EmaAtBelow(xs, alpha, i - 1, hi);
      ConvexCombinationBelow(alpha, xs[i], EmaAt(xs, alpha, i - 1), hi);
    }
  }

  /**
    The average at position i lies within any bounds that hold for every
    input up to i; in particular between the least and the greatest price
    seen so far.
   */
  lemma EmaBounded(xs: seq<real>, span: nat, i: nat, lo: real, hi: real)
    requires span >= 1 && i < |xs|
    requires forall k :: 0 <= k <= i ==> lo <= xs[k] <= hi
    ensures lo <= Ema(xs, span)[i] <= hi
  {
    EmaAtAbove(xs, Alpha(span), i, lo);
    EmaAtBelow(xs, Alpha(span), i, hi);
  }

  /** A constant column averages to itself at every position. */
  lemma EmaConstant(xs: seq<real>, span: nat, c: real)
    requires span >= 1 && AllEqual(xs, c)
    ensures AllEqual(Ema(xs, span), c)
  {
    forall i | 0 <= i < |xs|
      ensures Ema(xs, span)[i] == c
    {
      EmaBounded(xs, span, i, c, c);
    }
  }

  /** The average never looks ahead: position i depends only on the inputs up to i. */
  lemma {:induction false} EmaAtPrefix(xs: seq<real>, ys: seq<real>, alpha: real, i: nat)
    requires i < |xs| && i < |ys|
    requires forall k :: 0 <= k <= i ==> xs[k] == ys[k]
    ensures EmaAt(xs, alpha, i) == EmaAt(ys, alpha, i)
  {
    if i > 0 {
      EmaAtPrefix(xs, ys, alpha, i - 1);
    }
  }

  lemma EmaPrefix(xs: seq<real>, span: nat, n: nat)
    requires span >= 1 && n <= |xs|
    ensures Ema(xs[..n], span) == Ema(xs, span)[..n]
  {
    forall i | 0 <= i < n
      ensures Ema(xs[..n], span)[i] == Ema(xs, span)[i]
    {
      EmaAtPrefix(xs[..n], xs, Alpha(span), i);
    }
  }

  /**
    The average as pandas' weighted loop computes it: the running value and
    the new observation are combined with weights (1 - alpha) and alpha, and
    with `adjust=False` the old weight is reset to 1 after every step.
   */
  method EwmMean(xs: seq<real>, span: nat) returns (r: seq<real>)
    requires span >= 1
    ensures r == Ema(xs, span)
  {
    if |xs| == 0 {
      return [];
    }
    var alpha := Alpha(span);
    var oldWtFactor := 1.0 - alpha;
    var newWt := alpha;
    var weighted := xs[0];
    var oldWt := 1.0;
    r := [weighted];
    var i := 1;
    while i < |xs|
      invariant 1 <= i <= |xs|
      invariant oldWt == 1.0
      invariant |r| == i
      invariant weighted == EmaAt(xs, alpha, i - 1)
      invariant forall k :: 0 <= k < i ==> r[k] == EmaAt(xs, alpha, k)
    {
      var cur := xs[i];
      oldWt := oldWt * oldWtFactor;
      assert oldWt == 1.0 - alpha;
      WeightedStep(xs, alpha, i, oldWt, newWt, weighted);
      if weighted != cur {
        weighted := (oldWt * weighted + newWt * cur) / (oldWt + newWt);
      }
      assert weighted == EmaAt(xs, alpha, i);
      oldWt := 1.0;
      r := r + [weighted];
      i := i + 1;
    }
  }

  /** One step of the weighted loop is one step of the recurrence; equal values need no update. */
  lemma WeightedStep(xs: seq<real>, alpha: real, i: nat, oldWt: real, newWt: real, e: real)
    requires 0 < i < |xs| && e == EmaAt(xs, alpha, i - 1)
    requires oldWt == 1.0 - alpha && newWt == alpha
    ensures (if e != xs[i] then (oldWt * e + newWt * xs[i]) / (oldWt + newWt) else e) == EmaAt(xs, alpha, i)
  {
    EmaStep(xs, alpha, i);
  }
}
