/**
  The relative strength index of `compute_rsi(data, period)`.

  The change from the previous close (`diff`) is NaN at the first position.
  Gains keep the positive changes and losses the negated negative ones; both
  are built with `where(cond, 0)`, which replaces every entry whose condition
  is False by 0 -- and a comparison with NaN is False, so the leading NaN
  becomes 0 too. Gains and losses are therefore defined everywhere, and their
  rolling means are defined from position period-1 on. The ratio of the two
  means is taken in float arithmetic, so no losses in the window gives an
  infinite ratio (RSI 100) when there were gains, and 0/0 (NaN, undefined)
  when there were none.
 */
module Rsi {
  import opened Columns
  import opened Rolling
  import opened Floats

  const DefaultPeriod: nat := 14

  /** `data.diff()` */
  function Diff(xs: seq<real>): (d: Series)
    ensures |d| == |xs|
    ensures |xs| > 0 ==> d[0].None?
    ensures forall i :: 1 <= i < |xs| ==> d[i].Some? && xs[i - 1] + d[i].value == xs[i]
  {
    seq(|xs|, i requires 0 <= i < |xs| => if i == 0 then None else Some(xs[i] - xs[i - 1]))
  }

  /** `delta > 0`, which is False at NaN. */
  predicate IsPositive(o: Option<real>) {
    o.Some? && o.value > 0.0
  }

  /** `delta < 0`, which is False at NaN. */
  predicate IsNegative(o: Option<real>) {
    o.Some? && o.value < 0.0
  }

  /** `s.where(cond, other)`: keeps an entry where `cond` holds and puts `other` everywhere else. */
  function Where(s: Series, cond: Option<real> -> bool, other: real): (r: Series)
    ensures |r| == |s|
  {
    seq(|s|, i requires 0 <= i < |s| => if cond(s[i]) then s[i] else Some(other))
  }

  /** `delta.where(delta > 0, 0)` */
  function Gains(xs: seq<real>): (r: Series)
    ensures |r| == |xs|
  {
    Where(Diff(xs), IsPositive, 0.0)
  }

  /** `-delta.where(delta < 0, 0)` */
  function Losses(xs: seq<real>): (r: Series)
    ensures |r| == |xs|
  {
    Negate(Where(Diff(xs), IsNegative, 0.0))
  }

  function AverageGain(xs: seq<real>, period: nat): Series
    requires period >= 1
  {
    RollingMean(Gains(xs), period)
  }

  function AverageLoss(xs: seq<real>, period: nat): Series
    requires period >= 1
  {
    RollingMean(Losses(xs), period)
  }

  /** `100 - (100 / (1 + gain / loss))` in float arithmetic. */
  function RsiFloat(gain: Option<real>, loss: Option<real>): Float {
    var rs := Div(FromOption(gain), FromOption(loss));
    Sub(Finite(100.0), Div(Finite(100.0), Add(Finite(1.0), rs)))
  }

  /** `compute_rsi(data, period)` */
  function Rsi(xs: seq<real>, period: nat): (r: Series)
    requires period >= 1
    ensures |r| == |xs|
  {
    var gain := AverageGain(xs, period);
    var loss := AverageLoss(xs, period);
    seq(|xs|, i requires 0 <= i < |xs| => ToOption(RsiFloat(gain[i], loss[i])))
  }

  /** The RSI as a closed formula of the average gain g and average loss l. */
  function RsiReference(g: real, l: real): Option<real>
    requires g >= 0.0 && l >= 0.0
  {
    if l > 0.0 then Some(100.0 * g / (g + l))
    else if g > 0.0 then Some(100.0)
    else None
  }

  /** The gain and the loss at each position, as plain numbers. */
  function GainAt(xs: seq<real>, i: nat): real
    requires i < |xs|
  {
    if i > 0 && xs[i] - xs[i - 1] > 0.0 then xs[i] - xs[i - 1] else 0.0
  }

  function LossAt(xs: seq<real>, i: nat): real
    requires i < |xs|
  {
    if i > 0 && xs[i] - xs[i - 1] < 0.0 then xs[i - 1] - xs[i] else 0.0
  }

  function GainValues(xs: seq<real>): (r: seq<real>)
    ensures |r| == |xs|
  {
    seq(|xs|, i requires 0 <= i < |xs| => GainAt(xs, i))
  }

  function LossValues(xs: seq<real>): (r: seq<real>)
    ensures |r| == |xs|
  {
    seq(|xs|, i requires 0 <= i < |xs| => LossAt(xs, i))
  }

  /** `where` turns the leading NaN of the change into 0, so gains and losses have no NaN. */
  lemma GainsAndLossesAreLifted(xs: seq<real>)
    ensures Gains(xs) == Lift(GainValues(xs))
    ensures Losses(xs) == Lift(LossValues(xs))
  {
    forall i | 0 <= i < |xs|
      ensures Gains(xs)[i] == Some(GainAt(xs, i))
      ensures Losses(xs)[i] == Some(LossAt(xs, i))
    {
      var d := Diff(xs)[i];
      assert Gains(xs)[i] == if IsPositive(d) then d else Some(0.0);
      assert Losses(xs)[i] == if IsNegative(d) then Some(-d.value) else Some(0.0);
    }
  }

  /**
    Gains and losses are defined at every position and never negative; the
    first position contributes 0 to both; from the second position on, gain
    minus loss is the change from the previous close and one of the two is 0.
   */
  lemma GainsAndLosses(xs: seq<real>)
    ensures |Gains(xs)| == |xs| && |Losses(xs)| == |xs|
    ensures AllDefined(Gains(xs)) && AllDefined(Losses(xs))
    ensures forall i :: 0 <= i < |xs| ==> Gains(xs)[i].value >= 0.0 && Losses(xs)[i].value >= 0.0
    ensures |xs| > 0 ==> Gains(xs)[0] == Some(0.0) && Losses(xs)[0] == Some(0.0)
    ensures forall i :: 1 <= i < |xs| ==>
      && Gains(xs)[i].value - Losses(xs)[i].value == xs[i] - xs[i - 1]
      && (Gains(xs)[i].value == 0.0 || Losses(xs)[i].value == 0.0)
  {
    GainsAndLossesAreLifted(xs);
  }

  /** The trailing gains and losses of the window of `period` positions ending at i. */
  function GainWindow(xs: seq<real>, period: nat, i: nat): seq<real>
    requires period >= 1 && period <= i + 1 <= |xs|
  {
    GainValues(xs)[i + 1 - period..i + 1]
  }

  function LossWindow(xs: seq<real>, period: nat, i: nat): seq<real>
    requires period >= 1 && period <= i + 1 <= |xs|
  {
    LossValues(xs)[i + 1 - period..i + 1]
  }

  /** Position i of the averaged gain and loss. */
  lemma AveragesAt(xs: seq<real>, period: nat, i: nat)
    requires period >= 1 && i < |xs|
    ensures |AverageGain(xs, period)| == |xs| && |AverageLoss(xs, period)| == |xs|
    ensures i + 1 < period ==> AverageGain(xs, period)[i].None? && AverageLoss(xs, period)[i].None?
    ensures i + 1 >= period ==>
      && AverageGain(xs, period)[i] == Some(Mean(GainWindow(xs, period, i)))
      && AverageLoss(xs, period)[i] == Some(Mean(LossWindow(xs, period, i)))
      && Mean(GainWindow(xs, period, i)) >= 0.0
      && Mean(LossWindow(xs, period, i)) >= 0.0
  {
    GainsAndLossesAreLifted(xs);
    RollingMeanOfNonNegativeAt(GainValues(xs), period, i);
    RollingMeanOfNonNegativeAt(LossValues(xs), period, i);
  }

  /**
    The averaged gain and loss are defined exactly from position period-1 on
    (not period: position 0 takes part with a gain and loss of 0), are the
    means of the trailing gains and losses, and are never negative.
   */
  lemma AveragesDefinedFrom(xs: seq<real>, period: nat)
    requires period >= 1
    ensures |AverageGain(xs, period)| == |xs| && |AverageLoss(xs, period)| == |xs|
    ensures forall i :: 0 <= i < |xs| ==>
      && (AverageGain(xs, period)[i].Some? <==> i + 1 >= period)
      && (AverageLoss(xs, period)[i].Some? <==> i + 1 >= period)
    ensures forall i :: 0 <= i < |xs| && i + 1 >= period ==>
      && AverageGain(xs, period)[i] == Some(Mean(GainWindow(xs, period, i)))
      && AverageLoss(xs, period)[i] == Some(Mean(LossWindow(xs, period, i)))
      && Mean(GainWindow(xs, period, i)) >= 0.0
      && Mean(LossWindow(xs, period, i)) >= 0.0
  {
    forall i | 0 <= i < |xs|
      ensures AverageGain(xs, period)[i].Some? <==> i + 1 >= period
      ensures AverageLoss(xs, period)[i].Some? <==> i + 1 >= period
      ensures i + 1 >= period ==>
        && AverageGain(xs, period)[i] == Some(Mean(GainWindow(xs, period, i)))
        && AverageLoss(xs, period)[i] == Some(Mean(LossWindow(xs, period, i)))
        && Mean(GainWindow(xs, period, i)) >= 0.0
        && Mean(LossWindow(xs, period, i)) >= 0.0
    {
      AveragesAt(xs, period, i);
    }
  }

  /**
    Without the `where` step the leading NaN would stay in the first window:
    a rolling mean of the raw change is defined only from position period on,
    one position later than the averaged gain and loss.
   */
  lemma RawChangeAverageDefinedFrom(xs: seq<real>, period: nat)
    requires period >= 1
    ensures forall i :: 0 <= i < |xs| ==> (RollingMean(Diff(xs), period)[i].Some? <==> i >= period)
  {
    forall i | 0 <= i < |xs|
      ensures RollingMean(Diff(xs), period)[i].Some? <==> i >= period
    {
      RollingMeanDefined(Diff(xs), period, i);
      var win := Window(Diff(xs), i, period);
      if i + 1 >= period && i < period {
        assert win[0] == Diff(xs)[0];
      }
    }
  }

  lemma RsiRatioAlgebra(g: real, l: real)
    requires g >= 0.0 && l > 0.0
    ensures 1.0 + g / l > 0.0
    ensures 100.0 - 100.0 / (1.0 + g / l) == 100.0 * g / (g + l)
  {
    var r := g / l;
    var a := 1.0 + r;
    var q := 100.0 / a;
    assert r * l == g;
    assert a * l == g + l;
    assert q * a == 100.0;
    assert (100.0 - q) * (g + l) == 100.0 * l * a - q * a * l;
    assert (100.0 - q) * (g + l) == 100.0 * g;
    assert (100.0 * g / (g + l)) * (g + l) == 100.0 * g;
    CancelFactor(100.0 - q, 100.0 * g / (g + l), g + l);
  }

  lemma CancelFactor(x: real, y: real, d: real)
    requires d != 0.0 && x * d == y * d
    ensures x == y
  {
    assert (x - y) * d == 0.0;
  }

  /**
    The float computation of the RSI from non-negative averages g and l is
    never infinite and agrees with the closed formula: 100*g/(g+l) when l > 0,
    100 when l = 0 < g (an infinite ratio), undefined when both are 0 (0/0).
   */
  lemma RsiFloatMatchesReference(g: real, l: real)
    requires g >= 0.0 && l >= 0.0
    ensures !RsiFloat(Some(g), Some(l)).PosInf? && !RsiFloat(Some(g), Some(l)).NegInf?
    ensures ToOption(RsiFloat(Some(g), Some(l))) == RsiReference(g, l)
  {
    if l > 0.0 {
      RsiRatioAlgebra(g, l);
    }
  }

  /** An undefined average gives an undefined RSI. */
  lemma RsiFloatUndefined(gain: Option<real>, loss: Option<real>)
    requires gain.None? || loss.None?
    ensures RsiFloat(gain, loss) == NaN
  {
  }

  /** Every value of the closed formula lies in [0, 100], and below 100 while there are losses. */
  lemma RsiReferenceRange(g: real, l: real)
    requires g >= 0.0 && l >= 0.0
    ensures RsiReference(g, l).Some? ==> 0.0 <= RsiReference(g, l).value <= 100.0
    ensures l > 0.0 ==> RsiReference(g, l).value < 100.0
    ensures RsiReference(g, l).None? <==> g == 0.0 && l == 0.0
  {
    if l > 0.0 {
      assert 100.0 * g < 100.0 * (g + l);
    }
  }

  /**
    The RSI at one position: undefined before position period-1, and from
    there on the closed formula applied to the means of the trailing gains
    and losses.
   */
  lemma RsiAt(xs: seq<real>, period: nat, i: nat)
    requires period >= 1 && i < |xs|
    ensures i + 1 < period ==> Rsi(xs, period)[i].None?
    ensures i + 1 >= period ==>
      && Mean(GainWindow(xs, period, i)) >= 0.0
      && Mean(LossWindow(xs, period, i)) >= 0.0
      && Rsi(xs, period)[i] == RsiReference(Mean(GainWindow(xs, period, i)), Mean(LossWindow(xs, period, i)))
  {
    AveragesAt(xs, period, i);
    var gain, loss := AverageGain(xs, period)[i], AverageLoss(xs, period)[i];
    if i + 1 < period {
      RsiFloatUndefined(gain, loss);
    } else {
      RsiFloatMatchesReference(gain.value, loss.value);
    }
  }

  /** Every defined RSI value lies in [0, 100]. */
  lemma RsiRange(xs: seq<real>, period: nat)
    requires period >= 1
    ensures forall i :: 0 <= i < |xs| && Rsi(xs, period)[i].Some? ==> 0.0 <= Rsi(xs, period)[i].value <= 100.0
  {
    forall i | 0 <= i < |xs| && Rsi(xs, period)[i].Some?
      ensures 0.0 <= Rsi(xs, period)[i].value <= 100.0
    {
      RsiAt(xs, period, i);
      RsiReferenceRange(Mean(GainWindow(xs, period, i)), Mean(LossWindow(xs, period, i)));
    }
  }

  lemma FlatWindow(xs: seq<real>, period: nat, i: nat, c: real)
    requires period >= 1 && period <= i + 1 <= |xs| && AllEqual(xs, c)
    ensures Mean(GainWindow(xs, period, i)) == 0.0 && Mean(LossWindow(xs, period, i)) == 0.0
  {
    var gains, losses := GainWindow(xs, period, i), LossWindow(xs, period, i);
    forall k | 0 <= k < period
      ensures gains[k] == 0.0 && losses[k] == 0.0
    {
      var j := i + 1 - period + k;
      assert gains[k] == GainAt(xs, j) && losses[k] == LossAt(xs, j);
    }
    SumConstant(gains, 0.0);
    SumConstant(losses, 0.0);
  }

  /** On a constant column there are neither gains nor losses: the RSI is 0/0 and undefined everywhere. */
  lemma RsiConstant(xs: seq<real>, period: nat, c: real)
    requires period >= 1 && AllEqual(xs, c)
    ensures forall i :: 0 <= i < |xs| ==> Rsi(xs, period)[i].None?
  {
    forall i | 0 <= i < |xs|
      ensures Rsi(xs, period)[i].None?
    {
      RsiAt(xs, period, i);
      if i + 1 >= period {
        FlatWindow(xs, period, i, c);
      }
    }
  }

  lemma RisingWindow(xs: seq<real>, period: nat, i: nat)
    requires period >= 1 && period <= i + 1 <= |xs| && i >= 1 && StrictlyIncreasing(xs)
    ensures Mean(GainWindow(xs, period, i)) > 0.0 && Mean(LossWindow(xs, period, i)) == 0.0
  {
    var gains, losses := GainWindow(xs, period, i), LossWindow(xs, period, i);
    forall k | 0 <= k < period
      ensures gains[k] >= 0.0 && losses[k] == 0.0
    {
      var j := i + 1 - period + k;
      assert gains[k] == GainAt(xs, j) && losses[k] == LossAt(xs, j);
      if j > 0 {
        assert xs[j - 1] < xs[j];
      }
    }
    assert xs[i - 1] < xs[i];
    assert gains[period - 1] == GainAt(xs, i) > 0.0;
    SumPositive(gains, period - 1);
    SumConstant(losses, 0.0);
  }

  /**
    On strictly rising closes every window from position period-1 on holds a
    gain and no loss (the first position's change counts as 0), so the RSI is
    100 there, except at position 0, whose window holds no change at all.
   */
  lemma RsiRising(xs: seq<real>, period: nat)
    requires period >= 1 && StrictlyIncreasing(xs)
    ensures forall i :: 1 <= i < |xs| && i + 1 >= period ==> Rsi(xs, period)[i] == Some(100.0)
  {
    forall i | 1 <= i < |xs| && i + 1 >= period
      ensures Rsi(xs, period)[i] == Some(100.0)
    {
      RsiAt(xs, period, i);
      RisingWindow(xs, period, i);
    }
  }
}
