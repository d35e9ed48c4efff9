/**
  Trailing-window statistics with pandas' `rolling(window=w)` semantics.

  The window at position i holds positions max(0, i-w+1) .. i. With the
  default `min_periods` (equal to w) a position is defined only when its
  window holds w values that are not NaN; the mean is then the sum of those
  values over their count, and the variance divides by count - 1
  (`ddof = 1`), which also needs at least two values.
 */
module Rolling {
  import opened Columns

  /**
    True when `sqrt` returns the non-negative square root of every
    non-negative real. The root of 0 is spelled out although it follows from
    the rest: Dafny's nonlinear arithmetic does not derive it.
   */
  ghost predicate IsSquareRoot(sqrt: real -> real) {
    && sqrt(0.0) == 0.0
    && forall x: real :: x >= 0.0 ==> sqrt(x) >= 0.0 && sqrt(x) * sqrt(x) == x
  }

  function WindowStart(i: nat, w: nat): nat {
    if i + 1 >= w then i + 1 - w else 0
  }

  function Window(s: Series, i: nat, w: nat): Series
    requires i < |s|
  {
    s[WindowStart(i, w)..i + 1]
  }

  function MeanAt(s: Series, i: nat, w: nat): Option<real>
    requires i < |s| && w >= 1
  {
    var win := Window(s, i, w);
    var n := CountDefined(win);
    if n >= w then Some(SumDefined(win) / n as real) else None
  }

  function VarianceAt(s: Series, i: nat, w: nat): Option<real>
    requires i < |s| && w >= 1
  {
    var win := Window(s, i, w);
    var n := CountDefined(win);
    if n >= w && n > 1 then Some(SumSquaredDeviations(win, SumDefined(win) / n as real) / (n - 1) as real)
    else None
  }

  /** `s.rolling(window=w).mean()` */
  function RollingMean(s: Series, w: nat): (r: Series)
    requires w >= 1
    ensures |r| == |s|
  {
    seq(|s|, i requires 0 <= i < |s| => MeanAt(s, i, w))
  }

  /** `s.rolling(window=w).var()`, the sample variance. */
  function RollingVariance(s: Series, w: nat): (r: Series)
    requires w >= 1
    ensures |r| == |s|
  {
    seq(|s|, i requires 0 <= i < |s| => VarianceAt(s, i, w))
  }

  /** `s.rolling(window=w).std()`: the square root of the sample variance. */
  function RollingStd(s: Series, w: nat, sqrt: real -> real): (r: Series)
    requires w >= 1
    ensures |r| == |s|
  {
    seq(|s|, i requires 0 <= i < |s| =>
      var v := VarianceAt(s, i, w);
      if v.Some? then Some(sqrt(v.value)) else None)
  }

  /** A position of the rolling mean is defined exactly when its window is full and has no NaN. */
  lemma RollingMeanDefined(s: Series, w: nat, i: nat)
    requires w >= 1 && i < |s|
    ensures RollingMean(s, w)[i].Some? <==> i + 1 >= w && AllDefined(Window(s, i, w))
  {
    CountDefinedFull(Window(s, i, w));
  }

  /** On a price column, position i of the rolling mean is undefined before w-1 and the mean of the trailing w prices from there on. */
  lemma RollingMeanOfPricesAt(xs: seq<real>, w: nat, i: nat)
    requires w >= 1 && i < |xs|
    ensures RollingMean(Lift(xs), w)[i] == if i + 1 < w then None else Some(Mean(xs[i + 1 - w..i + 1]))
  {
    var lo := WindowStart(i, w);
    LiftSlice(xs, lo, i + 1);
    SumDefinedLift(xs[lo..i + 1]);
  }

  lemma RollingMeanOfPrices(xs: seq<real>, w: nat)
    requires w >= 1
    ensures |RollingMean(Lift(xs), w)| == |xs|
    ensures forall i :: 0 <= i < |xs| ==>
      RollingMean(Lift(xs), w)[i] == if i + 1 < w then None else Some(Mean(xs[i + 1 - w..i + 1]))
  {
    forall i | 0 <= i < |xs|
      ensures RollingMean(Lift(xs), w)[i] == if i + 1 < w then None else Some(Mean(xs[i + 1 - w..i + 1]))
    {
      RollingMeanOfPricesAt(xs, w, i);
    }
  }

  /** The rolling mean of a column that is never negative is never negative. */
  lemma RollingMeanOfNonNegativeAt(xs: seq<real>, w: nat, i: nat)
    requires w >= 1 && i < |xs|
    requires forall k :: 0 <= k < |xs| ==> xs[k] >= 0.0
    ensures RollingMean(Lift(xs), w)[i] == if i + 1 < w then None else Some(Mean(xs[i + 1 - w..i + 1]))
    ensures i + 1 >= w ==> Mean(xs[i + 1 - w..i + 1]) >= 0.0
  {
    RollingMeanOfPricesAt(xs, w, i);
    if i + 1 >= w {
      var ys := xs[i + 1 - w..i + 1];
      assert forall k :: 0 <= k < |ys| ==> ys[k] == xs[i + 1 - w + k];
      SumNonNegative(ys);
    }
  }

  /** For a constant price column, every defined position of the rolling mean is that constant. */
  lemma RollingMeanConstant(xs: seq<real>, w: nat, c: real)
    requires w >= 1 && AllEqual(xs, c)
    ensures forall i :: 0 <= i < |xs| ==>
      RollingMean(Lift(xs), w)[i] == if i + 1 < w then None else Some(c)
  {
    RollingMeanOfPrices(xs, w);
    forall i | 0 <= i < |xs|
      ensures RollingMean(Lift(xs), w)[i] == if i + 1 < w then None else Some(c)
    {
      if i + 1 >= w {
        MeanConstant(xs[i + 1 - w..i + 1], c);
      }
    }
  }

  /** On a price column, position i of the sample variance is defined from w-1 on when w > 1 (never when w = 1), and is the non-negative sample variance of the trailing w prices. */
  lemma RollingVarianceOfPricesAt(xs: seq<real>, w: nat, i: nat)
    requires w >= 1 && i < |xs|
    ensures RollingVariance(Lift(xs), w)[i] ==
      if w > 1 && i + 1 >= w then Some(SampleVariance(xs[i + 1 - w..i + 1])) else None
    ensures w > 1 && i + 1 >= w ==> SampleVariance(xs[i + 1 - w..i + 1]) >= 0.0
  {
    var lo := WindowStart(i, w);
    var ys := xs[lo..i + 1];
    LiftSlice(xs, lo, i + 1);
    SumDefinedLift(ys);
    assert Window(Lift(xs), i, w) == Lift(ys);
    if w > 1 && i + 1 >= w {
      assert SumDefined(Lift(ys)) / CountDefined(Lift(ys)) as real == Mean(ys);
      SumSquaredDeviationsLift(ys, Mean(ys));
      SquaredDeviationsNonNegative(ys, Mean(ys));
    }
  }

  lemma RollingVarianceOfPrices(xs: seq<real>, w: nat)
    requires w >= 1
    ensures forall i :: 0 <= i < |xs| ==>
      RollingVariance(Lift(xs), w)[i] ==
        if w > 1 && i + 1 >= w then Some(SampleVariance(xs[i + 1 - w..i + 1])) else None
    ensures forall i :: 0 <= i < |xs| && RollingVariance(Lift(xs), w)[i].Some? ==>
      RollingVariance(Lift(xs), w)[i].value >= 0.0
  {
    forall i | 0 <= i < |xs|
      ensures RollingVariance(Lift(xs), w)[i] ==
        if w > 1 && i + 1 >= w then Some(SampleVariance(xs[i + 1 - w..i + 1])) else None
      ensures RollingVariance(Lift(xs), w)[i].Some? ==> RollingVariance(Lift(xs), w)[i].value >= 0.0
    {
      RollingVarianceOfPricesAt(xs, w, i);
    }
  }

  /** A constant window has mean c and sample variance 0. */
  lemma ConstantWindow(ys: seq<real>, c: real)
    requires |ys| > 1 && AllEqual(ys, c)
    ensures Mean(ys) == c && SampleVariance(ys) == 0.0
  {
    MeanConstant(ys, c);
    SquaredDeviationsConstant(ys, c);
  }

  /** For a constant price column, every defined position of the sample variance is 0. */
  lemma RollingVarianceConstant(xs: seq<real>, w: nat, c: real)
    requires w >= 1 && AllEqual(xs, c)
    ensures forall i :: 0 <= i < |xs| && RollingVariance(Lift(xs), w)[i].Some? ==>
      RollingVariance(Lift(xs), w)[i].value == 0.0
  {
    forall i | 0 <= i < |xs| && RollingVariance(Lift(xs), w)[i].Some?
      ensures RollingVariance(Lift(xs), w)[i].value == 0.0
    {
      RollingVarianceOfPricesAt(xs, w, i);
      ConstantWindow(xs[i + 1 - w..i + 1], c);
    }
  }

  /** On a constant column the rolling standard deviation is 0 wherever it is defined. */
  lemma RollingStdConstant(xs: seq<real>, w: nat, sqrt: real -> real, c: real)
    requires w >= 1 && AllEqual(xs, c) && IsSquareRoot(sqrt)
    ensures forall i :: 0 <= i < |xs| && RollingStd(Lift(xs), w, sqrt)[i].Some? ==>
      RollingStd(Lift(xs), w, sqrt)[i].value == 0.0
  {
    RollingVarianceConstant(xs, w, c);
    forall i | 0 <= i < |xs| && RollingStd(Lift(xs), w, sqrt)[i].Some?
      ensures RollingStd(Lift(xs), w, sqrt)[i].value == 0.0
    {
      assert RollingVariance(Lift(xs), w)[i].Some?;
      assert RollingStd(Lift(xs), w, sqrt)[i].value == sqrt(RollingVariance(Lift(xs), w)[i].value);
    }
  }

  /** Position i of the rolling standard deviation: defined where the variance is, a non-negative number whose square is the sample variance. */
  lemma RollingStdOfPricesAt(xs: seq<real>, w: nat, sqrt: real -> real, i: nat)
    requires w >= 1 && i < |xs| && IsSquareRoot(sqrt)
    ensures RollingStd(Lift(xs), w, sqrt)[i].Some? <==> w > 1 && i + 1 >= w
    ensures w > 1 && i + 1 >= w ==>
      var sd := RollingStd(Lift(xs), w, sqrt)[i].value;
      sd >= 0.0 && sd * sd == SampleVariance(xs[i + 1 - w..i + 1])
  {
    RollingVarianceOfPricesAt(xs, w, i);
  }

  lemma RollingStdIsRootOfVariance(xs: seq<real>, w: nat, sqrt: real -> real)
    requires w >= 1 && IsSquareRoot(sqrt)
    ensures forall i :: 0 <= i < |xs| ==>
      (RollingStd(Lift(xs), w, sqrt)[i].Some? <==> w > 1 && i + 1 >= w)
    ensures forall i :: 0 <= i < |xs| && RollingStd(Lift(xs), w, sqrt)[i].Some? ==>
      var sd := RollingStd(Lift(xs), w, sqrt)[i].value;
      sd >= 0.0 && sd * sd == SampleVariance(xs[i + 1 - w..i + 1])
  {
    forall i | 0 <= i < |xs|
      ensures RollingStd(Lift(xs), w, sqrt)[i].Some? <==> w > 1 && i + 1 >= w
      ensures RollingStd(Lift(xs), w, sqrt)[i].Some? ==>
        var sd := RollingStd(Lift(xs), w, sqrt)[i].value;
        sd >= 0.0 && sd * sd == SampleVariance(xs[i + 1 - w..i + 1])
    {
      RollingStdOfPricesAt(xs, w, sqrt, i);
    }
  }

  /** The start of the window that ends just before position i. */
  function PreviousStart(i: nat, w: nat): nat {
    if i >= w then i - w else 0
  }

  /** How the window sums change when the window slides from ending before i to ending at i. */
  lemma SlideWindow(s: Series, w: nat, i: nat)
    requires w >= 1 && i < |s|
    ensures var lo := PreviousStart(i, w);
      && SumDefined(Window(s, i, w)) == SumDefined(s[lo..i]) + Value(s[i]) - (if i >= w then Value(s[lo]) else 0.0)
      && CountDefined(Window(s, i, w)) == CountDefined(s[lo..i]) + Present(s[i]) - (if i >= w then Present(s[lo]) else 0)
  {
    var lo := PreviousStart(i, w);
    assert s[lo..i + 1] == s[lo..i] + [s[i]];
    SumDefinedAppend(s[lo..i], [s[i]]);
    if i >= w {
      assert s[lo..i + 1] == [s[lo]] + s[lo + 1..i + 1];
      SumDefinedAppend([s[lo]], s[lo + 1..i + 1]);
    }
  }

  /**
    One step of the one-pass algorithm: from the sum and count of the window
    ending before i, adding the entering value and dropping the leaving one
    gives the sum and count of the window ending at i, and hence its mean.
   */
  lemma SlideStep(s: Series, w: nat, i: nat, sum: real, nobs: int, sum': real, nobs': int)
    requires w >= 1 && i < |s|
    requires sum == SumDefined(s[PreviousStart(i, w)..i]) && nobs == CountDefined(s[PreviousStart(i, w)..i])
    requires sum' == sum + Value(s[i]) - (if i >= w then Value(s[i - w]) else 0.0)
    requires nobs' == nobs + Present(s[i]) - (if i >= w then Present(s[i - w]) else 0)
    ensures sum' == SumDefined(s[PreviousStart(i + 1, w)..i + 1])
    ensures nobs' == CountDefined(s[PreviousStart(i + 1, w)..i + 1])
    ensures MeanAt(s, i, w) == if nobs' >= w then Some(sum' / nobs' as real) else None
  {
    SlideWindow(s, w, i);
    assert Window(s, i, w) == s[PreviousStart(i + 1, w)..i + 1];
  }

  /**
    The rolling mean as pandas computes it: one pass that adds the value
    entering the window and subtracts the one leaving it, keeping the sum and
    the count of non-NaN values in the window.
   */
  method SlidingMean(s: Series, w: nat) returns (r: Series)
    requires w >= 1
    ensures r == RollingMean(s, w)
  {
    r := [];
    var sum := 0.0;
    var nobs := 0;
    var i := 0;
    while i < |s|
      invariant 0 <= i <= |s|
      invariant |r| == i
      invariant forall k :: 0 <= k < i ==> r[k] == MeanAt(s, k, w)
      invariant sum == SumDefined(s[PreviousStart(i, w)..i])
      invariant nobs == CountDefined(s[PreviousStart(i, w)..i])
    {
      var sum0, nobs0 := sum, nobs;
      if s[i].Some? {
        sum := sum + s[i].value;
        nobs := nobs + 1;
      }
      if i >= w && s[i - w].Some? {
        sum := sum - s[i - w].value;
        nobs := nobs - 1;
      }
      SlideStep(s, w, i, sum0, nobs0, sum, nobs);
      r := r + [if nobs >= w then Some(sum / nobs as real) else None];
      i := i + 1;
    }
  }
}
