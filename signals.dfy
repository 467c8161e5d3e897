/**
 * Buy and sell flags derived from indicator series by strict comparisons. A pandas
 * comparison involving NaN is False, so a flag is never raised where an operand is
 * undefined.
 */
module Signals {
  import opened Types

  /** The buy and sell columns, index-aligned with the closes. */
  datatype Signals = Signals(buy: seq<bool>, sell: seq<bool>)

  /** RSI level below which the close is oversold (a buy). */
  const Oversold: real := 30.0
  /** RSI level above which the close is overbought (a sell). */
  const Overbought: real := 70.0

  /** `a > b` on two possibly-NaN entries. */
  predicate Above(a: Option<real>, b: Option<real>)
  {
    a.Some? && b.Some? && a.value > b.value
  }

  /** `a < b` on two possibly-NaN entries. */
  predicate Below(a: Option<real>, b: Option<real>)
  {
    a.Some? && b.Some? && a.value < b.value
  }

  /**
   * The SMA, EMA and MACD rule: buy where the fast line is above the slow line, sell where
   * it is below. Neither flag is raised where a line is undefined or the lines are equal,
   * and the two flags are never raised together.
   */
  function Crossover(fast: seq<Option<real>>, slow: seq<Option<real>>): (s: Signals)
    requires |fast| == |slow|
    ensures |s.buy| == |fast| && |s.sell| == |fast|
    ensures forall i :: 0 <= i < |fast| ==> !(s.buy[i] && s.sell[i])
    ensures forall i :: 0 <= i < |fast| && (fast[i].None? || slow[i].None?) ==>
              !s.buy[i] && !s.sell[i]
    ensures forall i :: 0 <= i < |fast| ==>
              (!s.buy[i] && !s.sell[i] <==>
                 fast[i].None? || slow[i].None? || fast[i].value == slow[i].value)
    ensures forall i :: 0 <= i < |fast| && s.buy[i] ==> fast[i].value > slow[i].value
    ensures forall i :: 0 <= i < |fast| && s.sell[i] ==> fast[i].value < slow[i].value
  {
    Signals(seq(|fast|, i requires 0 <= i < |fast| => Above(fast[i], slow[i])),
            seq(|fast|, i requires 0 <= i < |fast| => Below(fast[i], slow[i])))
  }

  /**
   * The RSI rule: buy where the RSI is strictly below 30, sell where it is strictly above 70.
   * Exactly 30 or 70, anything in between and an undefined RSI raise neither flag.
   */
  function RsiSignals(rsi: seq<Option<real>>): (s: Signals)
    ensures |s.buy| == |rsi| && |s.sell| == |rsi|
    ensures forall i :: 0 <= i < |rsi| ==> !(s.buy[i] && s.sell[i])
    ensures forall i :: 0 <= i < |rsi| ==> (s.buy[i] <==> rsi[i].Some? && rsi[i].value < Oversold)
    ensures forall i :: 0 <= i < |rsi| ==> (s.sell[i] <==> rsi[i].Some? && rsi[i].value > Overbought)
    ensures forall i :: (0 <= i < |rsi| && (rsi[i].None? || Oversold <= rsi[i].value <= Overbought))
              ==> !s.buy[i] && !s.sell[i]
  {
    Signals(seq(|rsi|, i requires 0 <= i < |rsi| => Below(rsi[i], Some(Oversold))),
            seq(|rsi|, i requires 0 <= i < |rsi| => Above(rsi[i], Some(Overbought))))
  }
}
