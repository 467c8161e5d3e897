# Strategy evaluation pipeline

A Dafny model of the trading-strategy back-test in `compute_strategy` (app.py). The model
starts from the downloaded daily closing prices and follows the pipeline:

- It chooses an indicator by strategy name: SMA, EMA, RSI or MACD.
- It derives buy and sell flags by strict comparisons.
- It computes the daily returns (`pct_change`).
- It applies the previous day's buy flag to each return (`shift(1)`).
- It compounds these returns into a cumulative curve (`cumprod`).
- It reduces the result to three figures:
  - the annualised growth rate (gmrr);
  - the annualised volatility (the sample standard deviation times the square root of 252);
  - the Sharpe ratio, which divides only when the volatility is positive.

Each pandas column is a Dafny sequence with the same length as the closes. A NaN entry is
`None`, and a comparison that involves NaN is false. The EMA, RSI and MACD columns come from
TA-Lib, so they are inputs (`Strategy.TalibOutputs`). The simple moving average is the only
indicator the pipeline computes itself, through pandas' `rolling().mean()`.

Modules:

- `Types`: Option, Result and the errors.
- `Series`: sums, means and the `skipna` filter.
- `Indicators`: the rolling mean.
- `Signals`: the flag rules.
- `Accumulate`: pandas' NaN-skipping scan.
- `Returns`: the return columns and the curve.
- `Metrics`: the variance, volatility, growth rate and Sharpe ratio.
- `Strategy`: the whole pipeline.

The volatility and the growth rate are stated by the equations they satisfy, because the model
has no square root or real power:

- `Metrics.IsVolatility`: `vol >= 0` and `vol * vol == 252 * variance`.
- `Metrics.IsAnnualised`: `(1 + gmrr)^days == final^252`.

Edge cases of `compute_strategy`, as the code behaves:

- **The curve on day 0.** The cumulative curve is NaN on day 0, not 1. The strategy return is
  NaN there, and `cumprod` leaves NaN entries NaN. The running product still starts from 1 on
  day 1.
- **No "insufficient data" error.** One close gives a NaN final value, a NaN variance and a
  Sharpe ratio of 0. No error is raised.
- **Windows that are not errors.** A short window that is not below the long one is accepted.
  So is a window longer than the data, which only gives an all-NaN average. A window of 0
  gives an all-NaN average. Only a negative window raises (`Types.InvalidWindow`).
- **Empty price data.** An empty frame fails at `iloc[-1]` (`Types.NoPrices`).
- **Unknown strategy name.** No signal column is created, so the look-up of `Buy_Signal`
  fails (`Types.UnknownStrategy`).
- **Three closes for a variance.** The standard deviation is taken over the defined strategy
  returns. There is one fewer of those than there are closes. So the variance needs at least
  three closes, not two.

## Model

| member | source | states |
|---|---|---|
| Indicators.RollingMean | app.py:18-19 | a negative window is refused with `InvalidWindow`; otherwise the average has one entry per close |
| Indicators.WindowSumIsSum | app.py:18-19 | the running window sum (add the newest close, drop the one leaving) equals the sum of the closes in the trailing window |
| Indicators.TrailingMeans | app.py:18-19 | entry `i` is NaN exactly when the window is 0 or `i < window - 1`; otherwise it is the arithmetic mean of `closes[i-window+1..i]` |
| Indicators.MeanWithinWindowRange | app.py:18-19 | a defined moving average lies between any lower and upper bound of the closes in its window |
| Signals.Crossover | app.py:20-21 | buy iff both lines are defined and fast > slow; sell iff fast < slow; never both; neither where a line is NaN or the lines are equal (also the rule at lines 25-26 and 33-34) |
| Signals.RsiSignals | app.py:29-30 | buy iff the RSI is defined and below 30; sell iff it is defined and above 70; nothing at exactly 30 or 70, in between, or on NaN |
| Strategy.ParseStrategy | app.py:17-31 | a strategy is selected exactly for the names SMA, EMA, RSI and MACD, and the selected strategy carries that name |
| Strategy.ParseName | app.py:17-31 | each strategy's own name selects that strategy |
| Strategy.ComputeSignals | app.py:17-34 | only SMA can fail, exactly when a window is negative (short window checked first); SMA crosses its two rolling means, EMA the two EMA columns, MACD the MACD and signal lines, RSI applies the 30/70 rule; the flags are aligned with the closes and never both raised |
| Returns.DailyReturns | app.py:37 | `pct_change` has one entry per close, NaN on day 0 and defined on every later day |
| Returns.DailyReturnRoundTrip | app.py:37 | applying day `i`'s return to the previous close gives back the close of day `i` |
| Returns.DailyGrowthPositive | app.py:37 | with positive closes, one plus a daily return is positive |
| Returns.StrategyReturns | app.py:38 | the strategy returns (each daily return times the flag lagged by `Returns.Shift`) are aligned with the daily returns |
| Returns.LaggedReturns | app.py:38 | the strategy return is NaN on day 0; on day `i >= 1` it is the daily return if `buy[i-1]`, otherwise 0 |
| Returns.NoLookahead | app.py:38 | two flag series that agree before day `i` give the same strategy returns up to and including day `i` |
| Accumulate.ScanFrom | app.py:39 | NaN-skipping accumulation keeps the length and is NaN exactly where its input is |
| Accumulate.ScanIsRunningFold | app.py:39 | each defined entry of the scan is the operation folded from the seed over every defined entry so far |
| Accumulate.ScanRecurrence | app.py:39 | for input NaN on day 0 and defined after: NaN on day 0, `op(seed, x1)` on day 1, `op(previous, x_i)` afterwards |
| Returns.CumProd | app.py:39 | the cumulative product of `Returns.GrowthFactors` (one plus each return, NaN kept) is aligned with its input |
| Returns.Compounding | app.py:39 | `cum[0]` is NaN, `cum[1] = 1 + r[1]`, and `cum[i] = cum[i-1] * (1 + r[i])` after that |
| Returns.CumulativeReturns | app.py:37-39 | the curve is aligned with the closes |
| Returns.CumulativeRecurrence | app.py:37-39 | the compounding recurrence, with seed 1, for the strategy's own curve |
| Returns.ZeroReturnsKeepCurveFlat | app.py:39 | while every strategy return from day 1 on is 0, the curve is 1 |
| Returns.FlatWithoutBuys | app.py:37-39 | without a buy flag before the last day, every curve entry from day 1 on is 1 |
| Returns.CumulativePositive | app.py:37-39 | with positive closes, every curve entry from day 1 on is defined and positive |
| Returns.HoldStep | app.py:37-39 | one step of the telescoping product: `closes[j]/closes[0]` times day `j+1`'s growth is `closes[j+1]/closes[0]` |
| Returns.Telescoping | app.py:37-39 | holding on every day before `i` makes `cum[i]` equal to `closes[i] / closes[0]` |
| Returns.ConstantPrices | app.py:37-39 | constant closes give daily and strategy returns of 0 and a curve of 1 from day 1 on |
| Series.Defined | app.py:43 | the `skipna` filter keeps at most as many values as the series has |
| Series.DefinedAfterFirst | app.py:43 | a series that is NaN only on day 0 keeps all its later values, in order |
| Metrics.SumSq | app.py:43 | a sum of squared deviations is never negative |
| Metrics.SumSqZero | app.py:43 | the squared deviations from `m` vanish exactly when every value equals `m` |
| Metrics.SampleVariance | app.py:43 | the variance (`ddof=1`) is NaN exactly when there are fewer than two values, and otherwise is non-negative |
| Metrics.VarianceZeroIffConstant | app.py:43 | two or more values have variance 0 exactly when they are all equal |
| Metrics.FlatGrowthRate | app.py:42 | a curve ending at 1 has an annualised growth rate of exactly 0, where `Metrics.IsAnnualised` states `(1 + gmrr)^days == final^252` for a positive final value and NaN for a NaN one |
| Metrics.SharpeRatio | app.py:44 | the ratio is 0 when the volatility is NaN or not positive; otherwise it is defined iff gmrr is, and `sharpe * vol == gmrr` |
| Metrics.SharpeGuard | app.py:43-44 | for a volatility meeting `Metrics.IsVolatility` (NaN with the variance, otherwise non-negative with `vol * vol == 252 * variance`): NaN or zero variance gives a Sharpe ratio of 0; positive variance gives positive volatility and a ratio defined iff gmrr is |
| Strategy.Evaluate | app.py:17-44 | an unknown name gives `UnknownStrategy`; `InvalidWindow` iff SMA with a negative window; otherwise `NoPrices` iff there are no closes, and success exactly for a known name, usable windows and some closes; on success the flags are the chosen strategy's rule, the daily returns are `pct_change`, the strategy returns and curve come from those flags, the final value is the last curve entry and the variance is that of the defined strategy returns |
| Strategy.StrategyReturnsDefined | app.py:37-38 | the strategy returns are NaN on day 0 and defined on every later day |
| Strategy.VarianceNeedsThreeDays | app.py:43 | the variance of a successful evaluation is NaN exactly when there are fewer than three closes |
| Strategy.SingleClose | app.py:37-44 | for figures related to the evaluation by `Strategy.Reports` (lines 42-44): a single close gives a NaN final value, variance, growth rate and volatility, and a Sharpe ratio of 0 |
| Strategy.IdleReport | app.py:37-44 | if every defined strategy return is 0, the curve ends at 1, gmrr is 0, the variance is 0 or NaN and the Sharpe ratio is 0 |
| Strategy.ConstantCloses | app.py:37-44 | constant closes: the curve ends at 1, gmrr is 0, the variance is 0 or NaN, and the Sharpe ratio is 0 |
| Strategy.NeverInvested | app.py:37-44 | no buy flag before the last day: the curve ends at 1, gmrr is 0 and the Sharpe ratio is 0 |
| Strategy.ExampleShortAverage | app.py:18 | the 2-day average of closes 10,10,10,12,12,12,15 is NaN,10,10,11,12,12,13.5 |
| Strategy.ExampleLongAverage | app.py:19 | the 3-day average of the same closes is NaN,NaN,10,32/3,34/3,12,13 |
| Strategy.ExampleFlags | app.py:18-21 | SMA(2,3) on these closes buys on days 3, 4 and 6 and never sells |
| Strategy.ExampleCurve | app.py:37-39 | with those flags, every jump in price falls on a day after a false flag, so the curve ends at 1 |
| Strategy.LaggedCrossoverExample | app.py:17-39 | the whole SMA(2,3) evaluation of the example succeeds, with those flags and a final value of 1 |

## Left out

- The download of prices with yfinance, and `reset_index` and `droplevel` (app.py:12-14). These are network I/O and column reshaping. The closes are a parameter.
- How TA-Lib computes the EMA, RSI and MACD (app.py:23-24, 28, 32). TA-Lib is a foreign C library; its outputs are parameters aligned with the closes. Errors TA-Lib might raise, for example on a bad period, are not modelled.
- The chart (app.py:47-53), the percentage and 2-decimal formatting of the result (app.py:55-59), and the Flask route with its JSON and `int`/`float` parsing (app.py:61-68). These are presentation and HTTP glue.
- `stop_loss_pct`: accepted but never used by the code.
- Floating point. Prices and returns are exact reals. NaN is `None`. Rounding, infinities and overflow are not modelled.
- Returns.DailyReturns requires strictly positive closes. A zero close would make pandas produce an infinite return, which the model does not represent.
- Metrics.IsVolatility characterises the volatility by `vol >= 0 && vol * vol == 252 * variance` instead of computing `np.sqrt`. The model does not prove that a square root exists.
- Metrics.IsAnnualised characterises gmrr only for a positive final value, by `(1 + gmrr)^days == final^252`. This is the real power `final ** (252 / days)`. The model does not say what happens for a non-positive final value. That cannot occur with positive closes (Returns.CumulativePositive). It does not prove that such a rate exists or is unique beyond the flat case (Metrics.FlatGrowthRate).
- The report figures are related to an evaluation by the predicate `Strategy.Reports`, not computed by a function, for the two reasons above.
