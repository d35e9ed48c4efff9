/**
  The MACD line and its signal line: the difference of a short and a long
  exponential average of the closes, and the exponential average of that
  difference. Both lines are seeded, not window-gated, so every position is
  defined.
 */
module Macd {
  import opened Columns
  import opened Ewm

  const ShortSpan: nat := 12
  const LongSpan: nat := 26
  const SignalSpan: nat := 9

  datatype MacdLines = MacdLines(macd: seq<real>, signal: seq<real>)

  /** `compute_macd(data, short_window, long_window, signal_window)` */
  function Macd(xs: seq<real>, shortSpan: nat, longSpan: nat, signalSpan: nat): (r: MacdLines)
    requires shortSpan >= 1 && longSpan >= 1 && signalSpan >= 1
    ensures |r.macd| == |xs| && |r.signal| == |xs|
  {
    var shortEma := Ema(xs, shortSpan);
    var longEma := Ema(xs, longSpan);
    var line := seq(|xs|, i requires 0 <= i < |xs| => shortEma[i] - longEma[i]);
    MacdLines(line, Ema(line, signalSpan))
  }

  /** Both averages are seeded with the first close, so both lines start at 0. */
  lemma MacdStartsAtZero(xs: seq<real>, shortSpan: nat, longSpan: nat, signalSpan: nat)
    requires shortSpan >= 1 && longSpan >= 1 && signalSpan >= 1 && |xs| > 0
    ensures Macd(xs, shortSpan, longSpan, signalSpan).macd[0] == 0.0
    ensures Macd(xs, shortSpan, longSpan, signalSpan).signal[0] == 0.0
  {
  }

  /** On a constant column both lines are 0 everywhere. */
  lemma MacdConstant(xs: seq<real>, shortSpan: nat, longSpan: nat, signalSpan: nat, c: real)
    requires shortSpan >= 1 && longSpan >= 1 && signalSpan >= 1 && AllEqual(xs, c)
    ensures AllEqual(Macd(xs, shortSpan, longSpan, signalSpan).macd, 0.0)
    ensures AllEqual(Macd(xs, shortSpan, longSpan, signalSpan).signal, 0.0)
  {
    EmaConstant(xs, shortSpan, c);
    EmaConstant(xs, longSpan, c);
    EmaConstant(Macd(xs, shortSpan, longSpan, signalSpan).macd, signalSpan, 0.0);
  }

  lemma RisingPrefixBelowLast(xs: seq<real>, i: nat)
    requires StrictlyIncreasing(xs) && i < |xs|
    ensures forall k :: 0 <= k <= i ==> xs[k] <= xs[i]
  {
  }

  /** One step of both recurrences: the gap grows when the new close is above the slow average. */
  lemma FastStepGains(fast: real, slow: real, x: real, ef: real, es: real, nf: real, ns: real)
    requires 0.0 < slow < fast <= 1.0 && es < x && es <= ef
    requires nf == fast * x + (1.0 - fast) * ef && ns == slow * x + (1.0 - slow) * es
    ensures nf > ns
  {
    MulPositive(fast - slow, x - es);
    MulNonNegative(1.0 - fast, ef - es);
    assert fast * x + (1.0 - fast) * ef - (slow * x + (1.0 - slow) * es)
        == (fast - slow) * (x - es) + (1.0 - fast) * (ef - es);
  }

  lemma FastStep(xs: seq<real>, fast: real, slow: real, i: nat)
    requires 0.0 < slow < fast <= 1.0 && 0 < i < |xs|
    requires EmaAt(xs, slow, i - 1) < xs[i] && EmaAt(xs, slow, i - 1) <= EmaAt(xs, fast, i - 1)
    ensures EmaAt(xs, fast, i) > EmaAt(xs, slow, i)
  {
    EmaStep(xs, fast, i);
    EmaStep(xs, slow, i);
    FastStepGains(fast, slow, xs[i], EmaAt(xs, fast, i - 1), EmaAt(xs, slow, i - 1), EmaAt(xs, fast, i), EmaAt(xs, slow, i));
  }

  /**
    On strictly rising closes the faster average stays at or above the slower
    one, strictly from the second position on.
   */
  lemma {:induction false} FastAverageLeads(xs: seq<real>, fast: real, slow: real, i: nat)
    requires 0.0 < slow < fast <= 1.0 && i < |xs| && StrictlyIncreasing(xs)
    ensures EmaAt(xs, fast, i) >= EmaAt(xs, slow, i)
    ensures i > 0 ==> EmaAt(xs, fast, i) > EmaAt(xs, slow, i)
  {
    if i > 0 {
      FastAverageLeads(xs, fast, slow, i - 1);
      var ef := EmaAt(xs, fast, i - 1);
      var es := EmaAt(xs, slow, i - 1);
      RisingPrefixBelowLast(xs, i - 1);
      EmaAtBelow(xs, slow, i - 1, xs[i - 1]);
      assert xs[i - 1] < xs[i];
      FastStep(xs, fast, slow, i);
    }
  }

  /**
    On strictly rising closes with a short span below the long span, the MACD
    line and its signal line are positive from the second position on.
   */
  lemma MacdRising(xs: seq<real>, shortSpan: nat, longSpan: nat, signalSpan: nat)
    requires 1 <= shortSpan < longSpan && signalSpan >= 1 && StrictlyIncreasing(xs)
    ensures forall i :: 1 <= i < |xs| ==> Macd(xs, shortSpan, longSpan, signalSpan).macd[i] > 0.0
    ensures forall i :: 1 <= i < |xs| ==> Macd(xs, shortSpan, longSpan, signalSpan).signal[i] > 0.0
  {
    var r := Macd(xs, shortSpan, longSpan, signalSpan);
    AlphaDecreasing(shortSpan, longSpan);
    forall i | 0 <= i < |xs|
      ensures r.macd[i] >= 0.0
      ensures i > 0 ==> r.macd[i] > 0.0
    {
      FastAverageLeads(xs, Alpha(shortSpan), Alpha(longSpan), i);
    }
    forall i | 1 <= i < |xs|
      ensures r.signal[i] > 0.0
    {
      AverageOfRisingLine(r.macd, Alpha(signalSpan), i);
    }
  }

  /** The average of a line that is never negative, and positive at i, is positive at i. */
  lemma AverageOfRisingLine(line: seq<real>, alpha: real, i: nat)
    requires 0.0 < alpha <= 1.0 && 0 < i < |line|
    requires forall k :: 0 <= k < |line| ==> line[k] >= 0.0
    requires line[i] > 0.0
    ensures EmaAt(line, alpha, i) > 0.0
  {
    EmaAtAbove(line, alpha, i - 1, 0.0);
    EmaStep(line, alpha, i);
    MulPositive(alpha, line[i]);
    MulNonNegative(1.0 - alpha, EmaAt(line, alpha, i - 1));
  }
}
