/**
 * The performance figures: the sample variance behind `Strategy_Return.std()`, the
 * annualised growth rate and volatility (characterised by the equations they satisfy,
 * since the model has no square root or real power), and the guarded Sharpe ratio.
 */
module Metrics {
  import opened Types
  import opened Series

  /** Sum of the squared deviations of `xs` from `m`. */
  function SumSq(xs: seq<real>, m: real): (r: real)
    ensures r >= 0.0
    decreases |xs|
  {
    if xs == [] then 0.0
    else
      SquareZero(xs[|xs| - 1] - m);
      SumSq(xs[..|xs| - 1], m) + Square(xs[|xs| - 1] - m)
  }

  /**
   * `x` squared. The second factor is passed through `Same`, so that the solver sees a
   * product of two equal factors rather than a power, which it reasons about more reliably.
   */
  function Square(x: real): real
  {
    x * Same(x)
  }

  /** The identity; used only by `Square`, as an aid to the solver. */
  function Same(x: real): real
  {
    x
  }

  /** A square is never negative, and only zero squares to zero. */
  lemma SquareZero(x: real)
    ensures Square(x) >= 0.0
    ensures Square(x) == 0.0 <==> x == 0.0
  {
    var y := Same(x);
    if x > 0.0 {
      assert x * y > 0.0;
    } else if x < 0.0 {
      assert x * y > 0.0;
    }
  }

  /**
   * pandas' `std() ** 2` with its defaults `ddof=1` and `skipna`, over the values that are
   * defined: undefined with fewer than two values, otherwise the squared deviations from the
   * mean divided by one less than the count.
   */
  function SampleVariance(xs: seq<real>): (v: Option<real>)
    ensures v.None? <==> |xs| < 2
    ensures v.Some? ==> v.value >= 0.0
  {
    if |xs| < 2 then None
    else Some(SumSq(xs, Mean(xs)) / (|xs| - 1) as real)
  }

  /** The squared deviations vanish exactly when every value equals `m`. */
  lemma {:induction false} SumSqZero(xs: seq<real>, m: real)
    ensures SumSq(xs, m) == 0.0 <==> forall i :: 0 <= i < |xs| ==> xs[i] == m
    decreases |xs|
  {
    if xs != [] {
      var init := xs[..|xs| - 1];
      SumSqZero(init, m);
      SquareZero(xs[|xs| - 1] - m);
      assert forall i :: 0 <= i < |init| ==> init[i] == xs[i];
    }
  }

  /** Two or more values have zero sample variance exactly when they are all equal. */
  lemma VarianceZeroIffConstant(xs: seq<real>)
    requires |xs| >= 2
    ensures SampleVariance(xs) == Some(0.0) <==>
              forall i, j :: 0 <= i < |xs| && 0 <= j < |xs| ==> xs[i] == xs[j]
  {
    var m := Mean(xs);
    var n := (|xs| - 1) as real;
    SumSqZero(xs, m);
    if forall i, j :: 0 <= i < |xs| && 0 <= j < |xs| ==> xs[i] == xs[j] {
      MeanOfConstant(xs, xs[0]);
    } else {
      var i, j :| 0 <= i < |xs| && 0 <= j < |xs| && xs[i] != xs[j];
      assert xs[i] != m || xs[j] != m;
      assert SumSq(xs, m) / n != 0.0;
    }
  }

  /**
   * `annual_vol = std * sqrt(252)`: undefined when the variance is, otherwise the non-negative
   * number whose square is 252 times the variance.
   */
  predicate IsVolatility(variance: Option<real>, vol: Option<real>)
  {
    (variance.None? && vol.None?)
    || (variance.Some? && vol.Some? && vol.value >= 0.0
        && Square(vol.value) == 252.0 * variance.value)
  }

  /** `x` raised to a natural power. */
  function Pow(x: real, k: nat): real
    decreases k
  {
    if k == 0 then 1.0 else x * Pow(x, k - 1)
  }

  /**
   * `annual_gmrr = final ** (252 / days) - 1`: undefined when the final curve value is;
   * for a positive final value, the rate `g > -1` with `(1 + g)^days == final^252`.
   */
  predicate IsAnnualised(final: Option<real>, days: nat, gmrr: Option<real>)
  {
    (final.None? ==> gmrr.None?)
    && (final.Some? && final.value > 0.0 ==>
          gmrr.Some? && gmrr.value > -1.0
          && Pow(1.0 + gmrr.value, days) == Pow(final.value, 252))
  }

  /** Every power of one is one. */
  lemma {:induction false} PowOne(k: nat)
    ensures Pow(1.0, k) == 1.0
    decreases k
  {
    if k > 0 {
      PowOne(k - 1);
    }
  }

  /** A positive power of a base above one is above one. */
  lemma {:induction false} PowAboveOne(x: real, k: nat)
    requires x > 1.0 && k >= 1
    ensures Pow(x, k) > 1.0
    decreases k
  {
    if k > 1 {
      PowAboveOne(x, k - 1);
      ProductAboveOne(x, Pow(x, k - 1));
    }
  }

  /** A positive power of a base in (0, 1) stays in (0, 1). */
  lemma {:induction false} PowBelowOne(x: real, k: nat)
    requires 0.0 < x < 1.0 && k >= 1
    ensures 0.0 < Pow(x, k) < 1.0
    decreases k
  {
    if k > 1 {
      PowBelowOne(x, k - 1);
      ProductBelowOne(x, Pow(x, k - 1));
    }
  }

  lemma ProductAboveOne(a: real, b: real)
    requires a > 1.0 && b > 1.0
    ensures a * b > 1.0
  {
  }

  lemma ProductBelowOne(a: real, b: real)
    requires 0.0 < a < 1.0 && 0.0 < b < 1.0
    ensures 0.0 < a * b < 1.0
  {
  }

  /** A curve that ends at 1 has an annualised growth rate of exactly 0. */
  lemma FlatGrowthRate(days: nat, gmrr: Option<real>)
    requires days >= 1 && IsAnnualised(Some(1.0), days, gmrr)
    ensures gmrr == Some(0.0)
  {
    PowOne(252);
    var x := 1.0 + gmrr.value;
    if x > 1.0 {
      PowAboveOne(x, days);
    } else if x < 1.0 {
      PowBelowOne(x, days);
    }
  }

  /**
   * `sharpe_ratio = gmrr / vol if vol > 0 else 0`: 0 whenever the volatility is not
   * positive (NaN compares false), otherwise the rate divided by the volatility, NaN when
   * the rate is NaN.
   */
  function SharpeRatio(gmrr: Option<real>, vol: Option<real>): (s: Option<real>)
    ensures (vol.None? || vol.value <= 0.0) ==> s == Some(0.0)
    ensures vol.Some? && vol.value > 0.0 ==> (s.Some? <==> gmrr.Some?)
    ensures vol.Some? && vol.value > 0.0 && s.Some? ==> s.value * vol.value == gmrr.value
  {
    if vol.Some? && vol.value > 0.0 then
      (if gmrr.Some? then Some(gmrr.value / vol.value) else None)
    else Some(0.0)
  }

  /**
   * The Sharpe guard in terms of the variance: undefined or zero variance (fewer than two
   * defined returns, or all of them equal) gives a ratio of 0; positive variance gives a
   * positive volatility and the ratio `gmrr / vol`.
   */
  lemma SharpeGuard(variance: Option<real>, vol: Option<real>, gmrr: Option<real>)
    requires IsVolatility(variance, vol)
    ensures (variance.None? || variance.value == 0.0) ==> SharpeRatio(gmrr, vol) == Some(0.0)
    ensures variance.Some? && variance.value > 0.0 ==>
              vol.Some? && vol.value > 0.0 && (SharpeRatio(gmrr, vol).Some? <==> gmrr.Some?)
  {
    if variance.Some? {
      var v := vol.value;
      SquareZero(v);
    }
  }
}
