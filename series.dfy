/** Reductions over whole series: sums, means and dropping undefined entries. */
module Series {
  import opened Types

  /** Sum of a sequence of reals, accumulated from the left as a scan would. */
  function Sum(s: seq<real>): real
    decreases |s|
  {
    if s == [] then 0.0 else Sum(s[..|s| - 1]) + s[|s| - 1]
  }

  /** Arithmetic mean of a non-empty sequence. */
  function Mean(s: seq<real>): real
    requires |s| > 0
  {
    Sum(s) / |s| as real
  }

  lemma {:induction false} SumAppend(a: seq<real>, b: seq<real>)
    ensures Sum(a + b) == Sum(a) + Sum(b)
    decreases |b|
  {
    if b == [] {
      assert a + b == a;
    } else {
      var b' := b[..|b| - 1];
      assert (a + b)[..|a + b| - 1] == a + b';
      SumAppend(a, b');
    }
  }

  lemma SumCons(x: real, s: seq<real>)
    ensures Sum([x] + s) == x + Sum(s)
  {
    SumAppend([x], s);
    assert [x][..0] == [];
  }

  /** A sum of values that all lie in [lo, hi] lies in [|s|*lo, |s|*hi]. */
  lemma {:induction false} SumBounds(s: seq<real>, lo: real, hi: real)
    requires forall i :: 0 <= i < |s| ==> lo <= s[i] <= hi
    ensures |s| as real * lo <= Sum(s) <= |s| as real * hi
    decreases |s|
  {
    if s != [] {
      SumBounds(s[..|s| - 1], lo, hi);
    }
  }

  /** The mean of values that all lie in [lo, hi] lies in [lo, hi]. */
  lemma MeanBounds(s: seq<real>, lo: real, hi: real)
    requires |s| > 0
    requires forall i :: 0 <= i < |s| ==> lo <= s[i] <= hi
    ensures lo <= Mean(s) <= hi
  {
    SumBounds(s, lo, hi);
    var n := |s| as real;
    assert n * lo <= Sum(s) <= n * hi;
    assert Sum(s) / n >= lo by { assert (n * lo) / n == lo; }
    assert Sum(s) / n <= hi by { assert (n * hi) / n == hi; }
  }

  /** The mean of a constant sequence is that constant. */
  lemma MeanOfConstant(s: seq<real>, c: real)
    requires |s| > 0
    requires forall i :: 0 <= i < |s| ==> s[i] == c
    ensures Mean(s) == c
  {
    MeanBounds(s, c, c);
  }

  /** The defined entries of a series, in order (pandas' `skipna`). */
  function Defined(s: seq<Option<real>>): (d: seq<real>)
    ensures |d| <= |s|
    decreases |s|
  {
    if s == [] then []
    else if s[0].Some? then [s[0].value] + Defined(s[1..])
    else Defined(s[1..])
  }

  /** A series undefined at index 0 and defined everywhere after keeps all its later values. */
  lemma DefinedAfterFirst(s: seq<Option<real>>)
    requires |s| > 0 && s[0].None?
    requires forall i :: 1 <= i < |s| ==> s[i].Some?
    ensures |Defined(s)| == |s| - 1
    ensures forall i :: 0 <= i < |s| - 1 ==> Defined(s)[i] == s[i + 1].value
  {
    AllDefined(s[1..]);
  }

  lemma {:induction false} AllDefined(s: seq<Option<real>>)
    requires forall i :: 0 <= i < |s| ==> s[i].Some?
    ensures |Defined(s)| == |s|
    ensures forall i :: 0 <= i < |s| ==> Defined(s)[i] == s[i].value
    decreases |s|
  {
    if s != [] {
      AllDefined(s[1..]);
    }
  }
}
