/**
  The Bollinger bands of `compute_bollinger_bands(data, window)`: the rolling
  mean of the closes plus and minus twice their rolling sample standard
  deviation. Dafny has no square root on reals, so the square root is a
  parameter that `IsSquareRoot` pins down.
 */
module Bollinger {
  import opened Columns
  import opened Rolling

  const DefaultWindow: nat := 20

  /** Half the band width, in standard deviations. */
  const Width: real := 2.0

  datatype Bands = Bands(upper: Series, lower: Series)

  /** `compute_bollinger_bands(data, window)` */
  function BollingerBands(xs: seq<real>, window: nat, sqrt: real -> real): (b: Bands)
    requires window >= 1
    ensures |b.upper| == |xs| && |b.lower| == |xs|
  {
    var mid := RollingMean(Lift(xs), window);
    var sd := RollingStd(Lift(xs), window, sqrt);
    Bands(Plus(mid, Scale(sd, Width)), Minus(mid, Scale(sd, Width)))
  }

  /** The trailing window of closes that position i of the bands summarises. */
  function BandWindow(xs: seq<real>, window: nat, i: nat): seq<real>
    requires 1 < window <= i + 1 <= |xs|
  {
    xs[i + 1 - window..i + 1]
  }

  /**
    Position i of the bands: undefined until the window is full (always, for
    a window of 1, whose sample deviation is 0/0); from there on the two bands
    lie symmetrically around the mean of the window, upper above and lower
    below, each at a distance whose square is 4 times the sample variance.
   */
  lemma BandsAt(xs: seq<real>, window: nat, sqrt: real -> real, i: nat)
    requires window >= 1 && i < |xs| && IsSquareRoot(sqrt)
    ensures BollingerBands(xs, window, sqrt).upper[i].Some? <==> window > 1 && i + 1 >= window
    ensures BollingerBands(xs, window, sqrt).lower[i].Some? <==> window > 1 && i + 1 >= window
    ensures window > 1 && i + 1 >= window ==>
      var u := BollingerBands(xs, window, sqrt).upper[i].value;
      var l := BollingerBands(xs, window, sqrt).lower[i].value;
      var m := Mean(BandWindow(xs, window, i));
      && u + l == 2.0 * m
      && u >= m >= l
      && (u - m) * (u - m) == 4.0 * SampleVariance(BandWindow(xs, window, i))
  {
    RollingMeanOfPricesAt(xs, window, i);
    RollingStdOfPricesAt(xs, window, sqrt, i);
    if window > 1 && i + 1 >= window {
      var sd := RollingStd(Lift(xs), window, sqrt)[i].value;
      var u := BollingerBands(xs, window, sqrt).upper[i].value;
      var m := Mean(BandWindow(xs, window, i));
      assert u - m == 2.0 * sd;
      assert (u - m) * (u - m) == 4.0 * (sd * sd);
    }
  }

  /** Every defined position of the bands has upper >= lower, and upper + lower is twice the rolling mean. */
  lemma BandsEnvelope(xs: seq<real>, window: nat, sqrt: real -> real)
    requires window >= 1 && IsSquareRoot(sqrt)
    ensures forall i :: 0 <= i < |xs| ==>
      (BollingerBands(xs, window, sqrt).upper[i].Some? <==> window > 1 && i + 1 >= window)
    ensures forall i :: 0 <= i < |xs| ==>
      (BollingerBands(xs, window, sqrt).lower[i].Some? <==> window > 1 && i + 1 >= window)
    ensures forall i :: 0 <= i < |xs| && BollingerBands(xs, window, sqrt).upper[i].Some? ==>
      && BollingerBands(xs, window, sqrt).upper[i].value >= BollingerBands(xs, window, sqrt).lower[i].value
      && RollingMean(Lift(xs), window)[i].Some?
      && BollingerBands(xs, window, sqrt).upper[i].value + BollingerBands(xs, window, sqrt).lower[i].value
         == 2.0 * RollingMean(Lift(xs), window)[i].value
  {
    forall i | 0 <= i < |xs|
      ensures BollingerBands(xs, window, sqrt).upper[i].Some? <==> window > 1 && i + 1 >= window
      ensures BollingerBands(xs, window, sqrt).lower[i].Some? <==> window > 1 && i + 1 >= window
      ensures BollingerBands(xs, window, sqrt).upper[i].Some? ==>
        && BollingerBands(xs, window, sqrt).upper[i].value >= BollingerBands(xs, window, sqrt).lower[i].value
        && RollingMean(Lift(xs), window)[i].Some?
        && BollingerBands(xs, window, sqrt).upper[i].value + BollingerBands(xs, window, sqrt).lower[i].value
           == 2.0 * RollingMean(Lift(xs), window)[i].value
    {
      BandsAt(xs, window, sqrt, i);
      RollingMeanOfPricesAt(xs, window, i);
    }
  }

  /** On a constant column the bands collapse onto the constant wherever they are defined. */
  lemma BandsConstant(xs: seq<real>, window: nat, sqrt: real -> real, c: real)
    requires window >= 1 && IsSquareRoot(sqrt) && AllEqual(xs, c)
    ensures forall i :: 0 <= i < |xs| && window > 1 && i + 1 >= window ==>
      BollingerBands(xs, window, sqrt).upper[i] == Some(c) && BollingerBands(xs, window, sqrt).lower[i] == Some(c)
  {
    RollingStdConstant(xs, window, sqrt, c);
    forall i | 0 <= i < |xs| && window > 1 && i + 1 >= window
      ensures BollingerBands(xs, window, sqrt).upper[i] == Some(c)
      ensures BollingerBands(xs, window, sqrt).lower[i] == Some(c)
    {
      BandsAt(xs, window, sqrt, i);
      ConstantWindow(BandWindow(xs, window, i), c);
      RollingStdOfPricesAt(xs, window, sqrt, i);
    }
  }
}
