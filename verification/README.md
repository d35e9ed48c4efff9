# Crypto dashboard indicators, modelled in Dafny

The dashboard (`btc.py`) downloads daily prices for a cryptocurrency and
computes five technical indicators from the closing prices (btc.py:74-82):

- the 30-bar and 50-bar simple moving averages;
- the 14-bar relative strength index (RSI);
- the 20-bar Bollinger bands at two standard deviations;
- the 12/26/9 MACD line and its signal line.

The figure draws the candlesticks, both averages, both bands and the two MACD
lines. The RSI is computed but neither drawn nor returned.

This project models that indicator layer and proves what it computes. The
model uses pandas' semantics over exact reals:

- A column is a `Series` (module `Columns`), a sequence of `Option<real>`, where `None` stands for NaN.
- A rolling window of width w is defined only when it holds w non-NaN values.
- The rolling standard deviation is the sample deviation (it divides by n - 1).
- `ewm(span=s, adjust=False)` is the recurrence seeded with the first value, using alpha = 2/(s+1).
- The RSI's division is done in a small IEEE-style value type with infinities and NaN. Because of that, a window with gains and no losses gives an RSI of 100, and a window with neither gives NaN.

Modules, in dependency order:

| file | module | contents |
|---|---|---|
| columns.dfy | `Columns` | the column type, NaN-skipping sums and counts, the plain sample variance, element-wise arithmetic |
| rolling.dfy | `Rolling` | `rolling(w).mean()`, `.var()`, `.std()`, and pandas' one-pass mean algorithm |
| ewm.dfy | `Ewm` | `ewm(span, adjust=False).mean()`, as a recurrence and as pandas' weighted loop |
| floats.dfy | `Floats` | finite values, infinities and NaN, with IEEE rules for the special values |
| rsi.dfy | `Rsi` | `compute_rsi` |
| bollinger.dfy | `Bollinger` | `compute_bollinger_bands` |
| macd.dfy | `Macd` | `compute_macd` |
| indicators.dfy | `Indicators` | the indicator block of the dashboard route, with its constants |

## Model

| member | source | states |
|---|---|---|
| Rolling.RollingMean | btc.py:74-76 | `rolling(window=w).mean()` keeps the column's length. Its meaning is pinned down by the lemmas below and by the one-pass algorithm `Rolling.SlidingMean`. |
| Rolling.RollingStd | btc.py:547 | `rolling(window=w).std()` keeps the column's length. `Rolling.RollingStdIsRootOfVariance` relates it to the sample variance, which is defined independently over plain reals. |
| Rolling.RollingMeanDefined | btc.py:74-76 | A position of a rolling mean is defined exactly when its trailing window is full and holds no NaN. |
| Rolling.RollingMeanOfPrices | btc.py:74-76 | On gap-free closes, the rolling mean has the input's length. It is undefined at positions i < w-1 and is the mean of the trailing w closes elsewhere. |
| Rolling.RollingMeanConstant | btc.py:74-76 | On a constant price c, the moving average is c at every defined position. |
| Rolling.SlidingMean | btc.py:545 | pandas' one-pass algorithm yields the window-by-window definition. It adds the entering value, drops the leaving one, and counts non-NaN values. |
| Rolling.RollingVarianceOfPrices | btc.py:547 | The NaN-skipping rolling variance equals `Columns.SampleVariance` of the trailing w closes. That reference is defined separately over plain reals, as squared deviations over w-1, and is never negative. It is defined from position w-1 when w > 1, and never when w = 1. |
| Rolling.RollingStdIsRootOfVariance | btc.py:547 | The rolling std is defined exactly where the variance is. Its value is non-negative and squares to the sample variance. |
| Rolling.RollingStdConstant | btc.py:547 | On a constant column the rolling std is 0 wherever it is defined. |
| Rsi.Diff | btc.py:528 | `data.diff()` keeps the length. It is NaN at position 0, and elsewhere the previous close plus the change is the close. |
| Rsi.Where | btc.py:530-532 | `s.where(cond, other)` keeps the length of the column. |
| Rsi.Gains | btc.py:530 | The gain column has the length of the closes. |
| Rsi.Losses | btc.py:532 | The loss column has the length of the closes. |
| Rsi.GainsAndLosses | btc.py:528-532 | Gains and losses are defined everywhere and never negative. Both are 0 at position 0, where `where` replaces the leading NaN. Elsewhere gain - loss is the change from the previous close, and one of the two is 0. |
| Rsi.AveragesDefinedFrom | btc.py:530-532 | The average gain and loss are defined exactly from position period-1, not from period. There they are the non-negative means of the trailing gains and losses. |
| Rsi.RawChangeAverageDefinedFrom | btc.py:528-532 | Without the `where` step, the leading NaN would delay the first defined average to position period. |
| Rsi.RsiFloatMatchesReference | btc.py:534-536 | For non-negative averages g and l, the float expression `100 - 100/(1 + g/l)` is never infinite. It equals 100g/(g+l) when l > 0, gives 100 when l = 0 < g, and is undefined when both are 0. |
| Rsi.RsiReferenceRange | btc.py:534-536 | That value lies in [0, 100], and strictly below 100 when there are losses. It is undefined exactly when g = l = 0. |
| Rsi.Rsi | btc.py:526-538 | `compute_rsi` keeps the length of the closes. `Rsi.RsiAt` relates each position to the closed formula `Rsi.RsiReference`. |
| Rsi.RsiAt | btc.py:526-538 | The RSI is undefined before position period-1. From there on it is the closed formula of the trailing mean gain and mean loss. |
| Rsi.RsiRange | btc.py:526-538 | Every defined RSI value lies in [0, 100]. |
| Rsi.RsiConstant | btc.py:526-538 | On a constant price the RSI is undefined everywhere (0/0). |
| Rsi.RsiRising | btc.py:526-538 | On strictly rising closes the RSI is 100 at every position i >= 1 with i >= period-1. |
| Bollinger.BollingerBands | btc.py:543-553 | `compute_bollinger_bands` returns two bands, each as long as the closes. |
| Bollinger.BandsAt | btc.py:543-553 | Both bands are defined exactly when window > 1 and i >= window-1. Then upper + lower = 2·mean, upper >= mean >= lower, and (upper - mean)² = 4·sample variance. |
| Bollinger.BandsEnvelope | btc.py:543-553 | At every defined position, upper >= lower and upper + lower is twice the rolling mean. |
| Bollinger.BandsConstant | btc.py:545-551 | On a constant price c, both bands equal c wherever they are defined. |
| Ewm.Ema | btc.py:560-562 | `ewm(span, adjust=False).mean()` keeps the length. `Ewm.EwmMean` shows that pandas' weighted loop computes it. |
| Ewm.Alpha | btc.py:560-562 | The smoothing factor 2/(span+1) lies in (0, 1]. |
| Ewm.AlphaDecreasing | btc.py:560-562 | A longer span gives a strictly smaller smoothing factor. |
| Ewm.EmaBounded | btc.py:560-562 | The average at position i lies within any bounds that all inputs up to i respect, so it stays between their minimum and maximum. |
| Ewm.EmaConstant | btc.py:560-562 | A constant column averages to itself. |
| Ewm.EmaPrefix | btc.py:560-562 | The average of a prefix is the prefix of the average, so there is no look-ahead. |
| Ewm.EwmMean | btc.py:560-562 | pandas' weighted loop yields the recurrence e[0] = x[0], e[i] = alpha·x[i] + (1-alpha)·e[i-1]. The loop uses weights 1-alpha and alpha and resets the old weight to 1. |
| Macd.Macd | btc.py:558-568 | `compute_macd` returns the MACD and signal lines, each as long as the closes. |
| Macd.MacdStartsAtZero | btc.py:564-566 | Both averages are seeded with the first close, so macd[0] = 0 and signal[0] = 0. |
| Macd.MacdConstant | btc.py:558-568 | On a constant price both lines are 0 everywhere. |
| Macd.FastAverageLeads | btc.py:560-564 | On strictly rising closes the faster average stays at or above the slower one, and strictly above from position 1. |
| Macd.MacdRising | btc.py:558-568 | On strictly rising closes with short span < long span, the MACD line and the signal line are positive from position 1. |
| Indicators.Compute | btc.py:74-82 | The indicator block of the route gives seven columns, each as long as the closes. |
| Indicators.BlockShape | btc.py:74-82 | Every column has the length of the closes. The averages are defined exactly from positions 29 and 49 and the bands from 19. The RSI is never defined before 13 and always lies in [0, 100]. Both MACD lines are 0 at position 0. |
| Indicators.BlockOfConstant | btc.py:74-82 | On a flat market the averages and both bands equal the price wherever defined, the RSI is undefined everywhere, and both MACD lines are 0. |
| Indicators.BlockOfRisingMarket | btc.py:74-82 | On a strictly rising market the RSI is 100 from position 13, and both MACD lines are positive from position 1. |

## Where the code departs from the usual indicator definitions

The model follows the code in each case:

- **RSI when the average loss is 0.** The usual RSI definition takes 100 whenever the average loss is 0. This code divides in floating point, so the result is 100 only when the average gain is positive. When both averages are 0 the ratio is 0/0, and the RSI is NaN (`Rsi.RsiReferenceRange`, `Rsi.RsiConstant`).
- **Where the averages start.** The usual first RSI value comes after `period` changes, at position `period`. In this code, `where(delta > 0, 0)` turns the leading NaN of `diff()` into 0, so the averages and the RSI can be defined from position `period - 1` (`Rsi.AveragesDefinedFrom`, `Rsi.RawChangeAverageDefinedFrom`).
- **Short or empty input.** The code validates nothing:
  - An empty column gives empty indicator columns.
  - A single close gives MACD and signal values of 0 at position 0 (`Macd.MacdStartsAtZero`).

## Left out

- Everything outside the indicator block:
  - the Flask routes and form handling;
  - the price download (`get_data`, yfinance);
  - the Plotly figures;
  - the CSV export.
  These are I/O and presentation.
- The date index of the price frame. Columns are positional, and all indicator columns share the closes' positions.
- Float64 rounding and signed zero. Values are exact reals. The float type keeps only the special values that change the RSI's result: infinities and NaN.
- Missing or non-finite closes. The entry points take gap-free real prices. The `Series` layer (rolling mean, variance and std, `where`, element-wise arithmetic) handles NaN as pandas does. `ewm` with NaN inputs (`ignore_na`) is not modelled.
- The square root. Dafny has no real square root, so the rolling std and the bands take a function `sqrt` and require `Rolling.IsSquareRoot(sqrt)`. That predicate also states `sqrt(0) = 0`, which follows from the other clauses but which the verifier's nonlinear arithmetic does not derive.
- Windows below 1 and spans below 1. pandas rejects negative windows and spans below 1, and a window of 0 gives an all-NaN column. The code always passes 30, 50, 14, 20, 12, 26 and 9, so the model requires `w >= 1` and `span >= 1`.
- Indicators.BlockShape: for the RSI it states only that the value is never defined before position 13 and lies in [0, 100]. The exact condition lives in `Rsi.RsiAt` with `Rsi.RsiReferenceRange`: defined from position 13 unless the window has neither gains nor losses.
