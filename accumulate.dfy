/**
 * The NaN-skipping accumulation pandas uses for its cumulative functions (`cumprod`, `cumsum`):
 * a left-to-right scan that keeps a running value, leaves a NaN entry NaN and does not let it
 * change the running value. `Fold` is the reference it is proved against.
 */
module Accumulate {
  import opened Types

  /** The scan, resumed with running value `acc`. */
  function ScanFrom(s: seq<Option<real>>, op: (real, real) -> real, acc: real): (c: seq<Option<real>>)
    ensures |c| == |s|
    ensures forall i :: 0 <= i < |s| ==> (c[i].None? <==> s[i].None?)
    decreases |s|
  {
    if s == [] then []
    else if s[0].None? then [None] + ScanFrom(s[1..], op, acc)
    else [Some(op(acc, s[0].value))] + ScanFrom(s[1..], op, op(acc, s[0].value))
  }

  /** Reference: `op` folded from `seed` over the defined entries, left to right. */
  function Fold(s: seq<Option<real>>, op: (real, real) -> real, seed: real): real
    decreases |s|
  {
    if s == [] then seed
    else if s[|s| - 1].None? then Fold(s[..|s| - 1], op, seed)
    else op(Fold(s[..|s| - 1], op, seed), s[|s| - 1].value)
  }

  /** Extending a prefix by one entry applies `op` once if the entry is defined. */
  lemma FoldStep(s: seq<Option<real>>, op: (real, real) -> real, seed: real, i: nat)
    requires i < |s|
    ensures s[i].None? ==> Fold(s[..i + 1], op, seed) == Fold(s[..i], op, seed)
    ensures s[i].Some? ==> Fold(s[..i + 1], op, seed) == op(Fold(s[..i], op, seed), s[i].value)
  {
    assert s[..i + 1][..i] == s[..i];
  }

  /** Moving the head of `s` onto the end of `done` leaves the joined prefixes unchanged. */
  lemma PrefixShift<T>(done: seq<T>, s: seq<T>, i: nat)
    requires 0 < i < |s|
    ensures (done + [s[0]]) + s[1..][..i] == done + s[..i + 1]
  {
    assert s[..i + 1] == [s[0]] + s[1..][..i];
  }

  /**
   * The scan resumed after a prefix `done` yields, at each defined entry, the fold of `done`
   * followed by everything up to that entry.
   */
  lemma {:induction false} ScanFromAt(done: seq<Option<real>>, s: seq<Option<real>>,
                                      op: (real, real) -> real, seed: real, i: nat)
    requires i < |s|
    ensures ScanFrom(s, op, Fold(done, op, seed))[i] ==
              if s[i].None? then None else Some(Fold(done + s[..i + 1], op, seed))
    decreases |s|
  {
    var done' := done + [s[0]];
    FoldStep(done', op, seed, |done|);
    assert done'[..|done|] == done && done'[..|done| + 1] == done';
    if i == 0 {
      assert done + s[..1] == done';
    } else {
      var t, j: nat := s[1..], i - 1;
      ScanFromAt(done', t, op, seed, j);
      assert ScanFrom(s, op, Fold(done, op, seed))[i] == ScanFrom(t, op, Fold(done', op, seed))[j];
      PrefixShift(done, s, i);
    }
  }

  /** The scan from the seed is the running fold: NaN where the entry is NaN, else the fold so far. */
  lemma ScanIsRunningFold(s: seq<Option<real>>, op: (real, real) -> real, seed: real, i: nat)
    requires i < |s|
    ensures ScanFrom(s, op, seed)[i] == if s[i].None? then None else Some(Fold(s[..i + 1], op, seed))
  {
    var none: seq<Option<real>> := [];
    ScanFromAt(none, s, op, seed, i);
    assert none + s[..i + 1] == s[..i + 1];
  }

  /**
   * For a series that is NaN on day 0 and defined afterwards, the scan is NaN on day 0, applies
   * `op` to the seed on day 1, and to the previous entry on every later day.
   */
  lemma ScanRecurrence(s: seq<Option<real>>, op: (real, real) -> real, seed: real, i: nat)
    requires 1 <= i < |s| && s[0].None?
    requires forall k :: 1 <= k < |s| ==> s[k].Some?
    ensures ScanFrom(s, op, seed)[0].None?
    ensures i == 1 ==> ScanFrom(s, op, seed)[i] == Some(op(seed, s[i].value))
    ensures i > 1 ==> ScanFrom(s, op, seed)[i - 1].Some?
    ensures i > 1 ==>
              ScanFrom(s, op, seed)[i] == Some(op(ScanFrom(s, op, seed)[i - 1].value, s[i].value))
  {
    ScanIsRunningFold(s, op, seed, i);
    FoldStep(s, op, seed, i);
    if i == 1 {
      FoldStep(s, op, seed, 0);
      assert s[..0] == [];
    } else {
      var j: nat := i - 1;
      ScanIsRunningFold(s, op, seed, j);
      assert s[..j + 1] == s[..i];
    }
  }
}
