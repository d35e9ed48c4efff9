/**
  The indicator block of the dashboard route: from the closes it computes the
  30- and 50-bar moving averages, the 14-bar RSI, the 20-bar Bollinger bands
  and the 12/26/9 MACD, all aligned with the closes. Gaps are `None`. The
  figure draws the averages, the bands and the two MACD lines; the `rsi`
  column is computed but neither drawn nor returned.
 */
module Indicators {
  import opened Columns
  import opened Rolling
  import opened Rsi
  import opened Bollinger
  import opened Macd

  const ShortAverageWindow: nat := 30
  const LongAverageWindow: nat := 50

  datatype IndicatorBlock = IndicatorBlock(
    ma30: Series,
    ma50: Series,
    rsi: Series,
    upper: Series,
    lower: Series,
    macd: seq<real>,
    signal: seq<real>)

  /** The indicator block of the dashboard route, for a column of closes. */
  function Compute(closes: seq<real>, sqrt: real -> real): (c: IndicatorBlock)
    ensures |c.ma30| == |closes| && |c.ma50| == |closes| && |c.rsi| == |closes|
    ensures |c.upper| == |closes| && |c.lower| == |closes|
    ensures |c.macd| == |closes| && |c.signal| == |closes|
  {
    var bands := BollingerBands(closes, DefaultWindow, sqrt);
    var lines := Macd.Macd(closes, ShortSpan, LongSpan, SignalSpan);
    IndicatorBlock(
      RollingMean(Lift(closes), ShortAverageWindow),
      RollingMean(Lift(closes), LongAverageWindow),
      Rsi.Rsi(closes, DefaultPeriod),
      bands.upper,
      bands.lower,
      lines.macd,
      lines.signal)
  }

  /**
    Where each column starts: the moving averages at positions 29 and 49, the
    bands at 19, the RSI no earlier than 13 and always within [0, 100], and
    both MACD lines at position 0, where they are 0.
   */
  lemma BlockShape(closes: seq<real>, sqrt: real -> real)
    requires IsSquareRoot(sqrt)
    ensures forall i :: 0 <= i < |closes| ==>
      && (Compute(closes, sqrt).ma30[i].Some? <==> i >= 29)
      && (Compute(closes, sqrt).ma50[i].Some? <==> i >= 49)
      && (Compute(closes, sqrt).upper[i].Some? <==> i >= 19)
      && (Compute(closes, sqrt).lower[i].Some? <==> i >= 19)
      && (Compute(closes, sqrt).rsi[i].Some? ==> i >= 13 && 0.0 <= Compute(closes, sqrt).rsi[i].value <= 100.0)
    ensures |closes| > 0 ==> Compute(closes, sqrt).macd[0] == 0.0 && Compute(closes, sqrt).signal[0] == 0.0
  {
    var c := Compute(closes, sqrt);
    RollingMeanOfPrices(closes, ShortAverageWindow);
    RollingMeanOfPrices(closes, LongAverageWindow);
    BandsEnvelope(closes, DefaultWindow, sqrt);
    RsiRange(closes, DefaultPeriod);
    forall i | 0 <= i < |closes|
      ensures c.rsi[i].Some? ==> i >= 13
    {
      RsiAt(closes, DefaultPeriod, i);
    }
    if |closes| > 0 {
      MacdStartsAtZero(closes, ShortSpan, LongSpan, SignalSpan);
    }
  }

  /**
    A flat market: both moving averages and both bands sit on the price
    wherever they are defined, the RSI is undefined everywhere (no gains and
    no losses), and both MACD lines are 0.
   */
  lemma BlockOfConstant(closes: seq<real>, sqrt: real -> real, p: real)
    requires IsSquareRoot(sqrt) && AllEqual(closes, p)
    ensures forall i :: 0 <= i < |closes| ==>
      && Compute(closes, sqrt).ma30[i] == (if i >= 29 then Some(p) else None)
      && Compute(closes, sqrt).ma50[i] == (if i >= 49 then Some(p) else None)
      && Compute(closes, sqrt).upper[i] == (if i >= 19 then Some(p) else None)
      && Compute(closes, sqrt).lower[i] == (if i >= 19 then Some(p) else None)
      && Compute(closes, sqrt).rsi[i].None?
    ensures AllEqual(Compute(closes, sqrt).macd, 0.0) && AllEqual(Compute(closes, sqrt).signal, 0.0)
  {
    RollingMeanConstant(closes, ShortAverageWindow, p);
    RollingMeanConstant(closes, LongAverageWindow, p);
    BandsEnvelope(closes, DefaultWindow, sqrt);
    BandsConstant(closes, DefaultWindow, sqrt, p);
    RsiConstant(closes, DefaultPeriod, p);
    MacdConstant(closes, ShortSpan, LongSpan, SignalSpan, p);
  }

  /**
    A market that rises at every bar: from position 13 on the RSI is 100,
    and from position 1 on both MACD lines are positive.
   */
  lemma BlockOfRisingMarket(closes: seq<real>, sqrt: real -> real)
    requires StrictlyIncreasing(closes)
    ensures forall i :: 13 <= i < |closes| ==> Compute(closes, sqrt).rsi[i] == Some(100.0)
    ensures forall i :: 1 <= i < |closes| ==> Compute(closes, sqrt).macd[i] > 0.0 && Compute(closes, sqrt).signal[i] > 0.0
  {
    RsiRising(closes, DefaultPeriod);
    MacdRising(closes, ShortSpan, LongSpan, SignalSpan);
  }
}
