/**
  Position-aligned numeric columns as the indicator code sees them.

  A pandas float column is modelled as a `Series`: a sequence of optional
  exact reals, where `None` stands for NaN. Prices arrive without gaps and
  are lifted into a `Series` with `Lift`. The sums here are the building
  blocks of every rolling statistic.
 */
module Columns {

  datatype Option<+T> = None | Some(value: T)

  type Series = seq<Option<real>>

  /** A column of observed prices, with no missing value. */
  function Lift(xs: seq<real>): (s: Series)
    ensures |s| == |xs|
    ensures forall i :: 0 <= i < |xs| ==> s[i] == Some(xs[i])
  {
    seq(|xs|, i requires 0 <= i < |xs| => Some(xs[i]))
  }

  predicate AllDefined(s: Series) {
    forall i :: 0 <= i < |s| ==> s[i].Some?
  }

  predicate AllEqual(xs: seq<real>, c: real) {
    forall i :: 0 <= i < |xs| ==> xs[i] == c
  }

  predicate StrictlyIncreasing(xs: seq<real>) {
    forall j, k :: 0 <= j < k < |xs| ==> xs[j] < xs[k]
  }

  function Sum(xs: seq<real>): real {
    if |xs| == 0 then 0.0 else Sum(xs[..|xs| - 1]) + xs[|xs| - 1]
  }

  function Mean(xs: seq<real>): real
    requires |xs| > 0
  {
    Sum(xs) / |xs| as real
  }

  /** The sum of the squared deviations of the values from `m`. */
  function SquaredDeviations(xs: seq<real>, m: real): real {
    if |xs| == 0 then 0.0
    else SquaredDeviations(xs[..|xs| - 1], m) + (xs[|xs| - 1] - m) * (xs[|xs| - 1] - m)
  }

  /** The sample variance: squared deviations from the mean, divided by one less than the count. */
  function SampleVariance(xs: seq<real>): real
    requires |xs| > 1
  {
    SquaredDeviations(xs, Mean(xs)) / (|xs| - 1) as real
  }

  /** The value of a present entry, 0 for NaN. */
  function Value(o: Option<real>): real {
    if o.Some? then o.value else 0.0
  }

  function Present(o: Option<real>): nat {
    if o.Some? then 1 else 0
  }

  /** The sum of the values present; NaN entries are skipped, as pandas' rolling aggregations skip them. */
  function SumDefined(s: Series): real {
    if |s| == 0 then 0.0
    else SumDefined(s[..|s| - 1]) + Value(s[|s| - 1])
  }

  /** The number of values present (pandas' `nobs`). */
  function CountDefined(s: Series): (n: nat)
    ensures n <= |s|
  {
    if |s| == 0 then 0
    else CountDefined(s[..|s| - 1]) + Present(s[|s| - 1])
  }

  /** The sum of squared deviations from `m` of the values present. */
  function SumSquaredDeviations(s: Series, m: real): real {
    if |s| == 0 then 0.0
    else
      var last := s[|s| - 1];
      SumSquaredDeviations(s[..|s| - 1], m) + (if last.Some? then (last.value - m) * (last.value - m) else 0.0)
  }

  // Element-wise column arithmetic: NaN on either side gives NaN.

  function Plus(a: Series, b: Series): (r: Series)
    requires |a| == |b|
    ensures |r| == |a|
  {
    seq(|a|, i requires 0 <= i < |a| =>
      if a[i].Some? && b[i].Some? then Some(a[i].value + b[i].value) else None)
  }

  function Minus(a: Series, b: Series): (r: Series)
    requires |a| == |b|
    ensures |r| == |a|
  {
    seq(|a|, i requires 0 <= i < |a| =>
      if a[i].Some? && b[i].Some? then Some(a[i].value - b[i].value) else None)
  }

  function Scale(a: Series, k: real): (r: Series)
    ensures |r| == |a|
  {
    seq(|a|, i requires 0 <= i < |a| => if a[i].Some? then Some(a[i].value * k) else None)
  }

  function Negate(a: Series): (r: Series)
    ensures |r| == |a|
  {
    seq(|a|, i requires 0 <= i < |a| => if a[i].Some? then Some(-a[i].value) else None)
  }

  // Facts about the sums.

  lemma {:induction false} SumDefinedAppend(a: Series, b: Series)
    ensures SumDefined(a + b) == SumDefined(a) + SumDefined(b)
    ensures CountDefined(a + b) == CountDefined(a) + CountDefined(b)
    decreases |b|
  {
    if |b| > 0 {
      assert (a + b)[..|a + b| - 1] == a + b[..|b| - 1];
      SumDefinedAppend(a, b[..|b| - 1]);
    } else {
      assert a + b == a;
    }
  }

  /** On a gap-free column, the NaN-skipping sum and count are the plain sum and length. */
  lemma {:induction false} SumDefinedLift(xs: seq<real>)
    ensures SumDefined(Lift(xs)) == Sum(xs)
    ensures CountDefined(Lift(xs)) == |xs|
  {
    if |xs| > 0 {
      assert Lift(xs)[..|xs| - 1] == Lift(xs[..|xs| - 1]);
      SumDefinedLift(xs[..|xs| - 1]);
    }
  }

  lemma LiftSlice(xs: seq<real>, lo: nat, hi: nat)
    requires lo <= hi <= |xs|
    ensures Lift(xs)[lo..hi] == Lift(xs[lo..hi])
  {
  }

  /** Every value is present exactly when the count of present values is the length. */
  lemma {:induction false} CountDefinedFull(s: Series)
    ensures CountDefined(s) == |s| <==> AllDefined(s)
  {
    if |s| > 0 {
      CountDefinedFull(s[..|s| - 1]);
      if !s[|s| - 1].Some? {
        assert CountDefined(s) < |s|;
      } else if CountDefined(s) == |s| {
        assert AllDefined(s[..|s| - 1]);
        forall i | 0 <= i < |s| ensures s[i].Some? {
          if i < |s| - 1 {
            assert s[i] == s[..|s| - 1][i];
          }
        }
      } else {
        assert !AllDefined(s[..|s| - 1]);
        var j :| 0 <= j < |s| - 1 && !s[..|s| - 1][j].Some?;
        assert !s[j].Some?;
      }
    }
  }

  lemma {:induction false} SumConstant(xs: seq<real>, c: real)
    requires AllEqual(xs, c)
    ensures Sum(xs) == |xs| as real * c
  {
    if |xs| > 0 {
      SumConstant(xs[..|xs| - 1], c);
    }
  }

  /** A constant column has its constant as its mean. */
  lemma MeanConstant(xs: seq<real>, c: real)
    requires |xs| > 0 && AllEqual(xs, c)
    ensures Mean(xs) == c
  {
    SumConstant(xs, c);
    var n := |xs| as real;
    assert Sum(xs) == n * c;
    assert (n * c) / n == c;
  }

  lemma {:induction false} SumNonNegative(xs: seq<real>)
    requires forall i :: 0 <= i < |xs| ==> xs[i] >= 0.0
    ensures Sum(xs) >= 0.0
  {
    if |xs| > 0 {
      SumNonNegative(xs[..|xs| - 1]);
    }
  }

  /** A sum of non-negative terms with one positive term is positive. */
  lemma {:induction false} SumPositive(xs: seq<real>, k: nat)
    requires forall i :: 0 <= i < |xs| ==> xs[i] >= 0.0
    requires k < |xs| && xs[k] > 0.0
    ensures Sum(xs) > 0.0
  {
    if k == |xs| - 1 {
      SumNonNegative(xs[..|xs| - 1]);
    } else {
      SumPositive(xs[..|xs| - 1], k);
    }
  }

  lemma MulNonNegative(a: real, b: real)
    requires a >= 0.0 && b >= 0.0
    ensures a * b >= 0.0
  {
  }

  lemma MulPositive(a: real, b: real)
    requires a > 0.0 && b > 0.0
    ensures a * b > 0.0
  {
  }

  lemma SquareNonNegative(d: real)
    ensures d * d >= 0.0
  {
    if d < 0.0 {
      MulPositive(-d, -d);
      assert d * d == (-d) * (-d);
    } else {
      MulNonNegative(d, d);
    }
  }

  lemma {:induction false} SquaredDeviationsNonNegative(xs: seq<real>, m: real)
    ensures SquaredDeviations(xs, m) >= 0.0
  {
    if |xs| > 0 {
      SquaredDeviationsNonNegative(xs[..|xs| - 1], m);
      SquareNonNegative(xs[|xs| - 1] - m);
    }
  }

  /** Around their own common value, the values of a constant column do not deviate. */
  lemma {:induction false} SquaredDeviationsConstant(xs: seq<real>, c: real)
    requires AllEqual(xs, c)
    ensures SquaredDeviations(xs, c) == 0.0
  {
    if |xs| > 0 {
      SquaredDeviationsConstant(xs[..|xs| - 1], c);
      assert xs[|xs| - 1] - c == 0.0;
    }
  }

  /** On a gap-free column, the NaN-skipping squared deviations are the plain ones. */
  lemma {:induction false} SumSquaredDeviationsLift(xs: seq<real>, m: real)
    ensures SumSquaredDeviations(Lift(xs), m) == SquaredDeviations(xs, m)
  {
    if |xs| > 0 {
      assert Lift(xs)[..|xs| - 1] == Lift(xs[..|xs| - 1]);
      SumSquaredDeviationsLift(xs[..|xs| - 1], m);
    }
  }
}
