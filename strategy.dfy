/**
 * `compute_strategy` from the point where the closes are known: choose the indicator by the
 * strategy name, derive the buy and sell flags, compound the lagged strategy returns, and
 * reduce the result to the figures the performance report is computed from.
 */
module Strategy {
  import opened Types
  import opened Series
  import opened Indicators
  import opened Signals
  import opened Returns
  import opened Metrics

  /** The four strategies the pipeline recognises. */
  datatype Kind = SMA | EMA | RSI | MACD

  /** The name a request uses for each strategy. */
  function Name(k: Kind): string
  {
    match k
    case SMA => "SMA"
    case EMA => "EMA"
    case RSI => "RSI"
    case MACD => "MACD"
  }

  /** The strategy a name selects; names are compared exactly, with no case folding. */
  function ParseStrategy(name: string): (k: Option<Kind>)
    ensures k.Some? <==> name in {"SMA", "EMA", "RSI", "MACD"}
    ensures k.Some? ==> Name(k.value) == name
  {
    if name == "SMA" then Some(SMA)
    else if name == "EMA" then Some(EMA)
    else if name == "RSI" then Some(RSI)
    else if name == "MACD" then Some(MACD)
    else None
  }

  /** Every strategy's own name selects it. */
  lemma ParseName(k: Kind)
    ensures ParseStrategy(Name(k)) == Some(k)
  {
  }

  /**
   * The TA-Lib columns the EMA, RSI and MACD strategies read: the short and long EMA, the
   * RSI over the short window, and the MACD line with its signal line (periods 12, 26, 9).
   */
  datatype TalibOutputs = TalibOutputs(
    emaShort: seq<Option<real>>,
    emaLong: seq<Option<real>>,
    rsi: seq<Option<real>>,
    macd: seq<Option<real>>,
    macdSignal: seq<Option<real>>)

  /** Every TA-Lib column is aligned with `n` closes. */
  predicate Aligned(t: TalibOutputs, n: nat)
  {
    |t.emaShort| == n && |t.emaLong| == n && |t.rsi| == n && |t.macd| == n && |t.macdSignal| == n
  }

  /**
   * The flags of the chosen strategy. Only SMA computes its own indicator, and only it can
   * fail: a negative short window is refused first, then a negative long window.
   */
  function ComputeSignals(kind: Kind, closes: seq<real>, shortWindow: int, longWindow: int,
                          talib: TalibOutputs): (r: Result<Signals, Error>)
    requires Aligned(talib, |closes|)
    ensures r.Err? <==> kind == SMA && (shortWindow < 0 || longWindow < 0)
    ensures r.Err? ==> r.error == InvalidWindow(if shortWindow < 0 then shortWindow else longWindow)
    ensures r.Ok? ==> |r.value.buy| == |closes| && |r.value.sell| == |closes|
    ensures r.Ok? ==> forall i :: 0 <= i < |closes| ==> !(r.value.buy[i] && r.value.sell[i])
    ensures kind == SMA && r.Ok? ==>
              r.value == Crossover(RollingMean(closes, shortWindow).value, RollingMean(closes, longWindow).value)
    ensures kind == EMA ==> r == Ok(Crossover(talib.emaShort, talib.emaLong))
    ensures kind == RSI ==> r == Ok(RsiSignals(talib.rsi))
    ensures kind == MACD ==> r == Ok(Crossover(talib.macd, talib.macdSignal))
  {
    match kind
    case SMA =>
      var short := RollingMean(closes, shortWindow);
      if short.Err? then Err(short.error)
      else
        var long := RollingMean(closes, longWindow);
        if long.Err? then Err(long.error)
        else Ok(Crossover(short.value, long.value))
    case EMA => Ok(Crossover(talib.emaShort, talib.emaLong))
    case RSI => Ok(RsiSignals(talib.rsi))
    case MACD => Ok(Crossover(talib.macd, talib.macdSignal))
  }

  /**
   * The columns of the evaluated frame and the two figures the report is computed from:
   * the last cumulative value and the sample variance of the defined strategy returns.
   */
  datatype Evaluation = Evaluation(
    signals: Signals,
    daily: seq<Option<real>>,
    strategyReturns: seq<Option<real>>,
    cumulative: seq<Option<real>>,
    final: Option<real>,
    variance: Option<real>)

  /** The SMA strategy with a negative window, which pandas refuses. */
  predicate WindowRefused(strategy: string, shortWindow: int, longWindow: int)
  {
    ParseStrategy(strategy) == Some(SMA) && (shortWindow < 0 || longWindow < 0)
  }

  /**
   * The pipeline on the downloaded closes. An unknown strategy name ends in a missing
   * `Buy_Signal` column, a negative SMA window in pandas' refusal, and an empty frame in the
   * failed look-up of its last row.
   */
  function Evaluate(closes: seq<real>, strategy: string, shortWindow: int, longWindow: int,
                    talib: TalibOutputs): (r: Result<Evaluation, Error>)
    requires PositivePrices(closes) && Aligned(talib, |closes|)
    ensures ParseStrategy(strategy).None? ==> r == Err(UnknownStrategy(strategy))
    ensures r.Err? && r.error.InvalidWindow? <==>
              ParseStrategy(strategy) == Some(SMA) && (shortWindow < 0 || longWindow < 0)
    ensures r == Err(NoPrices) <==>
              ParseStrategy(strategy).Some? && !WindowRefused(strategy, shortWindow, longWindow) && |closes| == 0
    ensures r.Ok? <==>
              ParseStrategy(strategy).Some? && !WindowRefused(strategy, shortWindow, longWindow) && |closes| > 0
    ensures r.Ok? ==>
              Ok(r.value.signals) == ComputeSignals(ParseStrategy(strategy).value, closes, shortWindow, longWindow, talib)
    ensures r.Ok? ==> r.value.daily == DailyReturns(closes)
    ensures r.Ok? ==> r.value.strategyReturns == StrategyReturns(DailyReturns(closes), r.value.signals.buy)
    ensures r.Ok? ==> r.value.cumulative == CumulativeReturns(closes, r.value.signals.buy)
    ensures r.Ok? ==> r.value.final == r.value.cumulative[|closes| - 1]
    ensures r.Ok? ==> r.value.variance == SampleVariance(Defined(r.value.strategyReturns))
    ensures r.Ok? ==> |r.value.signals.buy| == |closes| && |r.value.daily| == |closes|
    ensures r.Ok? ==> |r.value.strategyReturns| == |closes| && |r.value.cumulative| == |closes|
  {
    var kind := ParseStrategy(strategy);
    if kind.None? then Err(UnknownStrategy(strategy))
    else
      var signals := ComputeSignals(kind.value, closes, shortWindow, longWindow, talib);
      if signals.Err? then Err(signals.error)
      else if |closes| == 0 then Err(NoPrices)
      else
        var daily := DailyReturns(closes);
        var strategyReturns := StrategyReturns(daily, signals.value.buy);
        var cumulative := CumulativeReturns(closes, signals.value.buy);
        Ok(Evaluation(signals.value, daily, strategyReturns, cumulative,
                      cumulative[|closes| - 1], SampleVariance(Defined(strategyReturns))))
  }

  /**
   * The three reported figures agree with an evaluation over `days` rows: the annualised
   * growth rate of the final value, the annualised volatility of the variance, and the
   * guarded Sharpe ratio of the two.
   */
  predicate Reports(e: Evaluation, days: nat, gmrr: Option<real>, vol: Option<real>, sharpe: Option<real>)
  {
    IsAnnualised(e.final, days, gmrr) && IsVolatility(e.variance, vol) && sharpe == SharpeRatio(gmrr, vol)
  }

  /** The strategy returns are undefined on the first day and defined on every later day. */
  lemma StrategyReturnsDefined(closes: seq<real>, buy: seq<bool>)
    requires PositivePrices(closes) && |buy| == |closes| && |closes| > 0
    ensures StrategyReturns(DailyReturns(closes), buy)[0].None?
    ensures forall k :: 1 <= k < |closes| ==> StrategyReturns(DailyReturns(closes), buy)[k].Some?
  {
    forall k | 0 <= k < |closes|
      ensures StrategyReturns(DailyReturns(closes), buy)[k].None? <==> k == 0
    {
      LaggedReturns(closes, buy, k);
    }
  }

  /**
   * The standard deviation is taken over one value fewer than there are closes, so fewer than
   * three closes leave it undefined and the Sharpe ratio 0.
   */
  lemma VarianceNeedsThreeDays(closes: seq<real>, strategy: string, shortWindow: int, longWindow: int,
                               talib: TalibOutputs)
    requires PositivePrices(closes) && Aligned(talib, |closes|)
    requires Evaluate(closes, strategy, shortWindow, longWindow, talib).Ok?
    ensures Evaluate(closes, strategy, shortWindow, longWindow, talib).value.variance.None? <==> |closes| < 3
  {
    var e := Evaluate(closes, strategy, shortWindow, longWindow, talib).value;
    StrategyReturnsDefined(closes, e.signals.buy);
    DefinedAfterFirst(e.strategyReturns);
  }

  /**
   * A single close: there is no defined return, so the final value and the variance are
   * undefined, and the report has no growth rate, no volatility and a Sharpe ratio of 0.
   */
  lemma SingleClose(closes: seq<real>, strategy: string, shortWindow: int, longWindow: int,
                    talib: TalibOutputs, gmrr: Option<real>, vol: Option<real>, sharpe: Option<real>)
    requires PositivePrices(closes) && Aligned(talib, |closes|) && |closes| == 1
    requires Evaluate(closes, strategy, shortWindow, longWindow, talib).Ok?
    requires Reports(Evaluate(closes, strategy, shortWindow, longWindow, talib).value, |closes|, gmrr, vol, sharpe)
    ensures Evaluate(closes, strategy, shortWindow, longWindow, talib).value.final.None?
    ensures Evaluate(closes, strategy, shortWindow, longWindow, talib).value.variance.None?
    ensures gmrr.None? && vol.None? && sharpe == Some(0.0)
  {
    var e := Evaluate(closes, strategy, shortWindow, longWindow, talib).value;
    StrategyReturnsDefined(closes, e.signals.buy);
    DefinedAfterFirst(e.strategyReturns);
    assert e.cumulative == CumProd(GrowthFactors(e.strategyReturns));
    Accumulate.ScanIsRunningFold(GrowthFactors(e.strategyReturns), Times, 1.0, 0);
  }

  /**
   * A strategy whose every defined return is 0 reports a curve ending at 1, a growth rate of
   * 0, a variance that is 0 or undefined, and a Sharpe ratio of 0.
   */
  lemma IdleReport(closes: seq<real>, buy: seq<bool>, e: Evaluation,
                   gmrr: Option<real>, vol: Option<real>, sharpe: Option<real>)
    requires PositivePrices(closes) && |buy| == |closes| && |closes| >= 2
    requires forall k :: 1 <= k < |closes| ==> StrategyReturns(DailyReturns(closes), buy)[k] == Some(0.0)
    requires e.strategyReturns == StrategyReturns(DailyReturns(closes), buy)
    requires e.final == CumulativeReturns(closes, buy)[|closes| - 1]
    requires e.variance == SampleVariance(Defined(e.strategyReturns))
    requires Reports(e, |closes|, gmrr, vol, sharpe)
    ensures e.final == Some(1.0)
    ensures gmrr == Some(0.0)
    ensures e.variance.None? || e.variance == Some(0.0)
    ensures sharpe == Some(0.0)
  {
    var n := |closes|;
    ZeroReturnsKeepCurveFlat(closes, buy, n - 1);
    FlatGrowthRate(n, gmrr);
    StrategyReturnsDefined(closes, buy);
    DefinedAfterFirst(e.strategyReturns);
    var d := Defined(e.strategyReturns);
    assert forall k :: 0 <= k < |d| ==> d[k] == 0.0;
    if |d| >= 2 {
      VarianceZeroIffConstant(d);
    }
    SharpeGuard(e.variance, vol, gmrr);
  }

  /**
   * Constant closes: every return is 0, the curve ends at 1, the growth rate is 0, the
   * variance is 0 or undefined, and the Sharpe ratio is 0.
   */
  lemma ConstantCloses(closes: seq<real>, strategy: string, shortWindow: int, longWindow: int,
                       talib: TalibOutputs, gmrr: Option<real>, vol: Option<real>, sharpe: Option<real>)
    requires PositivePrices(closes) && Aligned(talib, |closes|) && |closes| >= 2
    requires forall j :: 0 <= j < |closes| ==> closes[j] == closes[0]
    requires Evaluate(closes, strategy, shortWindow, longWindow, talib).Ok?
    requires Reports(Evaluate(closes, strategy, shortWindow, longWindow, talib).value, |closes|, gmrr, vol, sharpe)
    ensures Evaluate(closes, strategy, shortWindow, longWindow, talib).value.final == Some(1.0)
    ensures gmrr == Some(0.0)
    ensures Evaluate(closes, strategy, shortWindow, longWindow, talib).value.variance.None?
            || Evaluate(closes, strategy, shortWindow, longWindow, talib).value.variance == Some(0.0)
    ensures sharpe == Some(0.0)
  {
    var e := Evaluate(closes, strategy, shortWindow, longWindow, talib).value;
    forall k | 1 <= k < |closes| ensures StrategyReturns(DailyReturns(closes), e.signals.buy)[k] == Some(0.0) {
      ConstantPrices(closes, e.signals.buy, k);
    }
    IdleReport(closes, e.signals.buy, e, gmrr, vol, sharpe);
  }

  /**
   * A strategy that raises no buy flag before the last day earns nothing: the curve ends at 1,
   * the growth rate is 0 and the Sharpe ratio is 0.
   */
  lemma NeverInvested(closes: seq<real>, strategy: string, shortWindow: int, longWindow: int,
                      talib: TalibOutputs, gmrr: Option<real>, vol: Option<real>, sharpe: Option<real>)
    requires PositivePrices(closes) && Aligned(talib, |closes|) && |closes| >= 2
    requires Evaluate(closes, strategy, shortWindow, longWindow, talib).Ok?
    requires forall j :: 0 <= j < |closes| - 1 ==>
               !Evaluate(closes, strategy, shortWindow, longWindow, talib).value.signals.buy[j]
    requires Reports(Evaluate(closes, strategy, shortWindow, longWindow, talib).value, |closes|, gmrr, vol, sharpe)
    ensures Evaluate(closes, strategy, shortWindow, longWindow, talib).value.final == Some(1.0)
    ensures gmrr == Some(0.0)
    ensures sharpe == Some(0.0)
  {
    var e := Evaluate(closes, strategy, shortWindow, longWindow, talib).value;
    forall k | 1 <= k < |closes| ensures StrategyReturns(DailyReturns(closes), e.signals.buy)[k] == Some(0.0) {
      LaggedReturns(closes, e.signals.buy, k);
    }
    IdleReport(closes, e.signals.buy, e, gmrr, vol, sharpe);
  }

  /** The closes of the worked example below: two jumps, each after a flat stretch. */
  const ExampleCloses: seq<real> := [10.0, 10.0, 10.0, 12.0, 12.0, 12.0, 15.0]

  /** The 2-day average of the example closes. */
  lemma ExampleShortAverage()
    ensures RollingMean(ExampleCloses, 2)
            == Ok([None, Some(10.0), Some(10.0), Some(11.0), Some(12.0), Some(12.0), Some(13.5)])
  {
    var c := ExampleCloses;
    assert WindowSum(c, 2, 0) == 10.0;
    assert WindowSum(c, 2, 1) == 20.0;
    assert WindowSum(c, 2, 2) == 20.0;
    assert WindowSum(c, 2, 3) == 22.0;
    assert WindowSum(c, 2, 4) == 24.0;
    assert WindowSum(c, 2, 5) == 24.0;
    assert WindowSum(c, 2, 6) == 27.0;
    var r := RollingMean(c, 2).value;
    assert r[0] == None && r[1] == Some(10.0) && r[2] == Some(10.0) && r[3] == Some(11.0);
    assert r[4] == Some(12.0) && r[5] == Some(12.0) && r[6] == Some(13.5);
    assert |r| == 7;
    assert r == [None, Some(10.0), Some(10.0), Some(11.0), Some(12.0), Some(12.0), Some(13.5)];
  }

  /** The 3-day average of the example closes. */
  lemma ExampleLongAverage()
    ensures RollingMean(ExampleCloses, 3)
            == Ok([None, None, Some(10.0), Some(32.0 / 3.0), Some(34.0 / 3.0), Some(12.0), Some(13.0)])
  {
    var c := ExampleCloses;
    assert WindowSum(c, 3, 0) == 10.0;
    assert WindowSum(c, 3, 1) == 20.0;
    assert WindowSum(c, 3, 2) == 30.0;
    assert WindowSum(c, 3, 3) == 32.0;
    assert WindowSum(c, 3, 4) == 34.0;
    assert WindowSum(c, 3, 5) == 36.0;
    assert WindowSum(c, 3, 6) == 39.0;
    var r := RollingMean(c, 3).value;
    assert r[0] == None && r[1] == None && r[2] == Some(10.0) && r[3] == Some(32.0 / 3.0);
    assert r[4] == Some(34.0 / 3.0) && r[5] == Some(12.0) && r[6] == Some(13.0);
    assert |r| == 7;
    assert r == [None, None, Some(10.0), Some(32.0 / 3.0), Some(34.0 / 3.0), Some(12.0), Some(13.0)];
  }

  /** The flags the two example averages raise: buys only, never a sell. */
  lemma ExampleFlags(talib: TalibOutputs)
    requires Aligned(talib, 7)
    ensures ComputeSignals(SMA, ExampleCloses, 2, 3, talib)
            == Ok(Signals([false, false, false, true, true, false, true],
                          [false, false, false, false, false, false, false]))
  {
    ExampleShortAverage();
    ExampleLongAverage();
    var s := Crossover([None, Some(10.0), Some(10.0), Some(11.0), Some(12.0), Some(12.0), Some(13.5)],
                       [None, None, Some(10.0), Some(32.0 / 3.0), Some(34.0 / 3.0), Some(12.0), Some(13.0)]);
    assert s.buy == [false, false, false, true, true, false, true];
    assert s.sell == [false, false, false, false, false, false, false];
  }

  /** Under the example flags every strategy return is 0, so the curve ends at 1. */
  lemma ExampleCurve()
    ensures PositivePrices(ExampleCloses)
    ensures CumulativeReturns(ExampleCloses, [false, false, false, true, true, false, true])[6] == Some(1.0)
  {
    var closes, buy := ExampleCloses, [false, false, false, true, true, false, true];
    assert PositivePrices(closes);
    forall k | 1 <= k <= 6 ensures StrategyReturns(DailyReturns(closes), buy)[k] == Some(0.0) {
      LaggedReturns(closes, buy, k);
    }
    ZeroReturnsKeepCurveFlat(closes, buy, 6);
  }

  /**
   * SMA with windows 2 and 3 over the example closes: the short average rises above the long
   * one on the day of the first jump, so that jump is not earned, and the flag is off on the
   * day before the second jump. The curve ends at 1.
   */
  lemma LaggedCrossoverExample(talib: TalibOutputs)
    requires Aligned(talib, 7)
    ensures Evaluate(ExampleCloses, "SMA", 2, 3, talib).Ok?
    ensures Evaluate(ExampleCloses, "SMA", 2, 3, talib).value.signals.buy
              == [false, false, false, true, true, false, true]
    ensures Evaluate(ExampleCloses, "SMA", 2, 3, talib).value.final == Some(1.0)
  {
    ExampleCurve();
    ExampleFlags(talib);
  }
}
