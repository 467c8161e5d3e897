/**
 * The return columns: `pct_change` of the closes, the strategy return that applies the
 * previous day's buy flag (`shift(1)`), and the compounded curve `(1 + r).cumprod()`.
 * `cumprod` skips NaN as pandas does by default: a NaN entry stays NaN and leaves the running
 * product unchanged.
 */
module Returns {
  import opened Types
  import opened Accumulate

  /** Every close is strictly positive. */
  predicate PositivePrices(closes: seq<real>)
  {
    forall i :: 0 <= i < |closes| ==> closes[i] > 0.0
  }

  /**
   * `pct_change`: undefined on the first day; afterwards the relative change against the
   * previous close, so that applying it to the previous close gives back the current one.
   */
  function DailyReturns(closes: seq<real>): (r: seq<Option<real>>)
    requires PositivePrices(closes)
    ensures |r| == |closes|
    ensures |closes| > 0 ==> r[0].None?
    ensures forall i :: 1 <= i < |closes| ==> r[i].Some?
  {
    seq(|closes|, i requires 0 <= i < |closes| =>
      if i == 0 then None else Some(closes[i] / closes[i - 1] - 1.0))
  }

  /** Applying day `i`'s return to the previous close gives back the close of day `i`. */
  lemma DailyReturnRoundTrip(closes: seq<real>, i: nat)
    requires PositivePrices(closes) && 1 <= i < |closes|
    ensures closes[i - 1] * (1.0 + DailyReturns(closes)[i].value) == closes[i]
  {
  }

  /** `shift(1)`: every entry moves one day later; the first day has no predecessor. */
  function Shift<T>(s: seq<T>): (r: seq<Option<T>>)
    ensures |r| == |s|
  {
    seq(|s|, i requires 0 <= i < |s| => if i == 0 then None else Some(s[i - 1]))
  }

  /** `return * flag` with NaN propagation; a true flag counts as 1 and a false one as 0. */
  function Scale(r: Option<real>, flag: Option<bool>): Option<real>
  {
    if r.Some? && flag.Some? then Some(if flag.value then r.value else 0.0) else None
  }

  /** `Daily_Return * Buy_Signal.shift(1)`. */
  function StrategyReturns(daily: seq<Option<real>>, buy: seq<bool>): (r: seq<Option<real>>)
    requires |daily| == |buy|
    ensures |r| == |daily|
  {
    var held := Shift(buy);
    seq(|daily|, i requires 0 <= i < |daily| => Scale(daily[i], held[i]))
  }

  /** `1 + series`, NaN staying NaN. */
  function GrowthFactors(s: seq<Option<real>>): (g: seq<Option<real>>)
    ensures |g| == |s|
  {
    seq(|s|, i requires 0 <= i < |s| => if s[i].Some? then Some(1.0 + s[i].value) else None)
  }

  /** The operation `cumprod` accumulates. */
  const Times: (real, real) -> real := (a: real, b: real) => a * b

  /** `cumprod()` with `skipna`, seeded with 1. */
  function CumProd(s: seq<Option<real>>): (c: seq<Option<real>>)
    ensures |c| == |s|
  {
    ScanFrom(s, Times, 1.0)
  }

  /** The compounded curve of a strategy that acts on `buy`. */
  function CumulativeReturns(closes: seq<real>, buy: seq<bool>): (c: seq<Option<real>>)
    requires PositivePrices(closes) && |buy| == |closes|
    ensures |c| == |closes|
  {
    CumProd(GrowthFactors(StrategyReturns(DailyReturns(closes), buy)))
  }

  /**
   * The one-day lag: the strategy return is undefined on the first day, and on day `i >= 1`
   * it is the day's return if the previous day raised a buy flag and 0 otherwise.
   */
  lemma LaggedReturns(closes: seq<real>, buy: seq<bool>, i: nat)
    requires PositivePrices(closes) && |buy| == |closes| && i < |closes|
    ensures StrategyReturns(DailyReturns(closes), buy)[i] ==
              if i == 0 then None
              else if buy[i - 1] then DailyReturns(closes)[i]
              else Some(0.0)
  {
  }

  /** No lookahead: the returns up to day `i` depend only on the flags before day `i`. */
  lemma NoLookahead(daily: seq<Option<real>>, buy: seq<bool>, buy': seq<bool>, i: nat)
    requires |daily| == |buy| == |buy'| && i < |daily|
    requires buy[..i] == buy'[..i]
    ensures StrategyReturns(daily, buy)[..i + 1] == StrategyReturns(daily, buy')[..i + 1]
  {
    var r, r' := StrategyReturns(daily, buy), StrategyReturns(daily, buy');
    forall k | 0 <= k <= i ensures r[k] == r'[k] {
      if k > 0 {
        assert buy[k - 1] == buy[..i][k - 1] == buy'[..i][k - 1] == buy'[k - 1];
      }
    }
  }

  /**
   * Compounding a return series that is undefined on day 0 and defined afterwards: the curve is
   * undefined on day 0, one plus the return on day 1, and on every later day the previous entry
   * times one plus the day's return.
   */
  lemma Compounding(r: seq<Option<real>>, i: nat)
    requires 1 <= i < |r| && r[0].None?
    requires forall k :: 1 <= k < |r| ==> r[k].Some?
    ensures CumProd(GrowthFactors(r))[0].None?
    ensures i == 1 ==> CumProd(GrowthFactors(r))[i] == Some(1.0 + r[i].value)
    ensures i > 1 ==> CumProd(GrowthFactors(r))[i - 1].Some?
    ensures i > 1 ==>
              CumProd(GrowthFactors(r))[i] == Some(Times(CumProd(GrowthFactors(r))[i - 1].value, 1.0 + r[i].value))
  {
    var g := GrowthFactors(r);
    assert forall k :: 1 <= k < |g| ==> g[k].Some?;
    ScanRecurrence(g, Times, 1.0, i);
    assert g[i].value == 1.0 + r[i].value;
  }

  /** The compounding recurrence, applied to the strategy's own curve. */
  lemma CumulativeRecurrence(closes: seq<real>, buy: seq<bool>, i: nat)
    requires PositivePrices(closes) && |buy| == |closes| && 1 <= i < |closes|
    ensures CumulativeReturns(closes, buy)[0].None?
    ensures StrategyReturns(DailyReturns(closes), buy)[i].Some?
    ensures i == 1 ==>
              CumulativeReturns(closes, buy)[i] == Some(1.0 + StrategyReturns(DailyReturns(closes), buy)[i].value)
    ensures i > 1 ==> CumulativeReturns(closes, buy)[i - 1].Some?
    ensures i > 1 ==>
              CumulativeReturns(closes, buy)[i] ==
              Some(Times(CumulativeReturns(closes, buy)[i - 1].value, 1.0 + StrategyReturns(DailyReturns(closes), buy)[i].value))
  {
    var sr := StrategyReturns(DailyReturns(closes), buy);
    assert forall k :: 1 <= k < |sr| ==> sr[k].Some?;
    Compounding(sr, i);
  }

  /** While every strategy return from day 1 on is 0, the curve stays at 1. */
  lemma {:induction false} ZeroReturnsKeepCurveFlat(closes: seq<real>, buy: seq<bool>, i: nat)
    requires PositivePrices(closes) && |buy| == |closes| && 1 <= i < |closes|
    requires forall k :: 1 <= k <= i ==> StrategyReturns(DailyReturns(closes), buy)[k] == Some(0.0)
    ensures CumulativeReturns(closes, buy)[i] == Some(1.0)
    decreases i
  {
    CumulativeRecurrence(closes, buy, i);
    if i > 1 {
      ZeroReturnsKeepCurveFlat(closes, buy, i - 1);
    }
  }

  /** Without a buy flag before the last day, the curve stays at 1 from day 1 on. */
  lemma FlatWithoutBuys(closes: seq<real>, buy: seq<bool>, i: nat)
    requires PositivePrices(closes) && |buy| == |closes| && 1 <= i < |closes|
    requires forall j :: 0 <= j < |closes| - 1 ==> !buy[j]
    ensures CumulativeReturns(closes, buy)[i] == Some(1.0)
  {
    forall k | 1 <= k <= i ensures StrategyReturns(DailyReturns(closes), buy)[k] == Some(0.0) {
      LaggedReturns(closes, buy, k);
    }
    ZeroReturnsKeepCurveFlat(closes, buy, i);
  }

  /** A product of two positive factors is positive. */
  lemma PositiveStep(a: real, b: real)
    requires a > 0.0 && b > 0.0
    ensures Times(a, b) > 0.0
  {
  }

  /** With strictly positive closes the curve stays strictly positive. */
  lemma {:induction false} CumulativePositive(closes: seq<real>, buy: seq<bool>, i: nat)
    requires PositivePrices(closes) && |buy| == |closes| && 1 <= i < |closes|
    ensures CumulativeReturns(closes, buy)[i].Some?
    ensures CumulativeReturns(closes, buy)[i].value > 0.0
    decreases i
  {
    CumulativeRecurrence(closes, buy, i);
    LaggedReturns(closes, buy, i);
    DailyGrowthPositive(closes, i);
    var f := 1.0 + StrategyReturns(DailyReturns(closes), buy)[i].value;
    if i > 1 {
      CumulativePositive(closes, buy, i - 1);
      PositiveStep(CumulativeReturns(closes, buy)[i - 1].value, f);
    }
  }

  /** A day's growth factor `1 + pct_change` is the positive ratio of two positive closes. */
  lemma DailyGrowthPositive(closes: seq<real>, i: nat)
    requires PositivePrices(closes) && 1 <= i < |closes|
    ensures 1.0 + DailyReturns(closes)[i].value > 0.0
  {
    var p, q := closes[i - 1], closes[i];
    assert q / p > 0.0;
  }

  /** One telescoping step: compounding the ratio up to day `j` by day `j + 1`'s growth. */
  lemma HoldStep(closes: seq<real>, j: nat)
    requires PositivePrices(closes) && j + 1 < |closes|
    ensures Times(closes[j] / closes[0], 1.0 + DailyReturns(closes)[j + 1].value) == closes[j + 1] / closes[0]
  {
    DailyReturnRoundTrip(closes, j + 1);
    var p, c0, f, q := closes[j], closes[0], 1.0 + DailyReturns(closes)[j + 1].value, closes[j + 1];
    assert p * f == q;
    assert (p / c0) * f == q / c0;
  }

  /**
   * Telescoping: holding every day up to day `i` compounds to exactly the price ratio
   * `closes[i] / closes[0]`.
   */
  lemma {:induction false} Telescoping(closes: seq<real>, buy: seq<bool>, i: nat)
    requires PositivePrices(closes) && |buy| == |closes| && 1 <= i < |closes|
    requires forall j :: 0 <= j < i ==> buy[j]
    ensures CumulativeReturns(closes, buy)[i] == Some(closes[i] / closes[0])
    decreases i
  {
    CumulativeRecurrence(closes, buy, i);
    LaggedReturns(closes, buy, i);
    if i > 1 {
      var j: nat := i - 1;
      Telescoping(closes, buy, j);
      HoldStep(closes, j);
    }
  }

  /** A constant price series has zero daily and strategy returns and a curve fixed at 1. */
  lemma ConstantPrices(closes: seq<real>, buy: seq<bool>, i: nat)
    requires PositivePrices(closes) && |buy| == |closes| && 1 <= i < |closes|
    requires forall j :: 0 <= j < |closes| ==> closes[j] == closes[0]
    ensures DailyReturns(closes)[i] == Some(0.0)
    ensures StrategyReturns(DailyReturns(closes), buy)[i] == Some(0.0)
    ensures CumulativeReturns(closes, buy)[i] == Some(1.0)
  {
    forall k | 1 <= k <= i
      ensures DailyReturns(closes)[k] == Some(0.0)
      ensures StrategyReturns(DailyReturns(closes), buy)[k] == Some(0.0)
    {
      assert closes[k] / closes[k - 1] == 1.0;
      LaggedReturns(closes, buy, k);
    }
    ZeroReturnsKeepCurveFlat(closes, buy, i);
  }
}
