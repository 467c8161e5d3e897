/**
 * The one indicator computed by the pipeline itself: the simple moving average
 * `Close.rolling(window=w).mean()`. pandas computes it with a running window sum
 * that adds the newest close and drops the one leaving the window; that recurrence
 * is `WindowSum`, and `TrailingMeans` proves it equals the mean of the trailing
 * `w` closes.
 */
module Indicators {
  import opened Types
  import opened Series

  /** The running window sum at index `i`: the first `w` steps only add, later steps also drop. */
  function WindowSum(closes: seq<real>, w: nat, i: nat): real
    requires 1 <= w && i < |closes|
    decreases i
  {
    if i == 0 then closes[0]
    else if i < w then WindowSum(closes, w, i - 1) + closes[i]
    else WindowSum(closes, w, i - 1) + closes[i] - closes[i - w]
  }

  /** First index of the (possibly short) window that ends at `i`. */
  function WindowStart(w: nat, i: nat): nat
  {
    if i + 1 >= w then i + 1 - w else 0
  }

  /** Extending a slice by one element on the right adds that element. */
  lemma SliceSumExtend(s: seq<real>, lo: nat, hi: nat)
    requires lo <= hi < |s|
    ensures Sum(s[lo..hi + 1]) == Sum(s[lo..hi]) + s[hi]
  {
    assert s[lo..hi + 1][..hi - lo] == s[lo..hi];
  }

  /** Dropping the first element of a non-empty slice subtracts it. */
  lemma SliceSumDrop(s: seq<real>, lo: nat, hi: nat)
    requires lo < hi <= |s|
    ensures Sum(s[lo + 1..hi]) == Sum(s[lo..hi]) - s[lo]
  {
    assert s[lo..hi] == [s[lo]] + s[lo + 1..hi];
    SumCons(s[lo], s[lo + 1..hi]);
  }

  lemma {:induction false} WindowSumIsSum(closes: seq<real>, w: nat, i: nat)
    requires 1 <= w && i < |closes|
    ensures WindowStart(w, i) <= i
    ensures WindowSum(closes, w, i) == Sum(closes[WindowStart(w, i)..i + 1])
    decreases i
  {
    if i == 0 {
      SliceSumExtend(closes, 0, 0);
    } else {
      WindowSumIsSum(closes, w, i - 1);
      var lo := WindowStart(w, i - 1);
      SliceSumExtend(closes, lo, i);
      if i >= w {
        SliceSumDrop(closes, lo, i + 1);
      }
    }
  }

  /**
   * `rolling(window).mean()`: the same length as the closes, NaN during the warm-up and
   * the window sum divided by the window afterwards. A negative window raises; a window of
   * 0 has no observations, so every mean is NaN.
   */
  function RollingMean(closes: seq<real>, window: int): (r: Result<seq<Option<real>>, Error>)
    ensures r.Err? <==> window < 0
    ensures r.Err? ==> r.error == InvalidWindow(window)
    ensures r.Ok? ==> |r.value| == |closes|
  {
    if window < 0 then Err(InvalidWindow(window))
    else Ok(seq(|closes|, i requires 0 <= i < |closes| =>
      if window == 0 || i + 1 < window then None
      else Some(WindowSum(closes, window, i) / window as real)))
  }

  /**
   * Alignment of the moving average: entry `i` is undefined exactly during the warm-up
   * (`i < window - 1`, or always for a window of 0), and otherwise is the arithmetic mean of
   * the `window` closes ending at `i`.
   */
  lemma TrailingMeans(closes: seq<real>, window: int, i: nat)
    requires window >= 0 && i < |closes|
    ensures RollingMean(closes, window).Ok?
    ensures RollingMean(closes, window).value[i].None? <==> window == 0 || i < window - 1
    ensures RollingMean(closes, window).value[i].Some? ==>
              RollingMean(closes, window).value[i].value == Mean(closes[i - window + 1..i + 1])
  {
    if window > 0 && i + 1 >= window {
      WindowSumIsSum(closes, window, i);
      assert |closes[i - window + 1..i + 1]| == window;
    }
  }

  /** A moving average never leaves the range of the closes in its window. */
  lemma MeanWithinWindowRange(closes: seq<real>, window: int, i: nat, lo: real, hi: real)
    requires window > 0 && window - 1 <= i < |closes|
    requires forall k :: i - window + 1 <= k <= i ==> lo <= closes[k] <= hi
    ensures RollingMean(closes, window).Ok?
    ensures RollingMean(closes, window).value[i].Some?
    ensures lo <= RollingMean(closes, window).value[i].value <= hi
  {
    TrailingMeans(closes, window, i);
    var win := closes[i - window + 1..i + 1];
    forall k | 0 <= k < |win| ensures lo <= win[k] <= hi {
      assert win[k] == closes[i - window + 1 + k];
    }
    MeanBounds(win, lo, hi);
  }
}
