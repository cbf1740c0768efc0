/**
 * Python list and numpy helpers over sequences of reals: slicing with
 * Python's clamping and negative-index rules, `sum` and `np.average`.
 */
module PySeq {
  import opened Wrappers

  /** Python's `abs` on a float. */
  function Abs(x: real): (r: real)
    ensures r >= 0.0 && (r == x || r == -x)
  {
    if x < 0.0 then -x else x
  }

  /** The position a Python slice bound `i` denotes in a list of length `n`. */
  function ClampIndex(i: int, n: nat): (k: nat)
    ensures k <= n
    ensures 0 <= i <= n ==> k == i
    ensures i > n ==> k == n
    ensures i < 0 && i + n >= 0 ==> k == i + n
    ensures i + n < 0 ==> k == 0
  {
    if i < 0 then (if i + n < 0 then 0 else i + n)
    else if i > n then n
    else i
  }

  /** Python's `s[start:stop]`: empty when the clamped start is past the clamped stop. */
  function Slice<T>(s: seq<T>, start: int, stop: int): seq<T>
  {
    var a := ClampIndex(start, |s|);
    var b := ClampIndex(stop, |s|);
    if a <= b then s[a..b] else []
  }

  /** With bounds inside the list, a Python slice is the plain subsequence. */
  lemma SliceInRange<T>(s: seq<T>, start: int, stop: int)
    requires 0 <= start <= stop <= |s|
    ensures Slice(s, start, stop) == s[start..stop]
    ensures |Slice(s, start, stop)| == stop - start
  {
  }

  /** A start past the stop (both in range) gives the empty list. */
  lemma SliceBackwards<T>(s: seq<T>, start: int, stop: int)
    requires 0 <= stop < start <= |s|
    ensures Slice(s, start, stop) == []
  {
  }

  /** Every slice is a contiguous run of the list: element k of the slice is element a + k. */
  lemma SliceIsContiguous<T>(s: seq<T>, start: int, stop: int)
    ensures var r := Slice(s, start, stop);
            |r| <= |s| &&
            forall k :: 0 <= k < |r| ==> r[k] == s[ClampIndex(start, |s|) + k]
  {
  }

  /** Python's `sum(xs)`. */
  function Sum(xs: seq<real>): real
  {
    if |xs| == 0 then 0.0 else Sum(xs[..|xs| - 1]) + xs[|xs| - 1]
  }

  /** The sum is the sum of its two halves. */
  lemma {:induction false} SumAppend(xs: seq<real>, ys: seq<real>)
    ensures Sum(xs + ys) == Sum(xs) + Sum(ys)
  {
    if |ys| > 0 {
      assert (xs + ys)[..|xs + ys| - 1] == xs + ys[..|ys| - 1];
      SumAppend(xs, ys[..|ys| - 1]);
    } else {
      assert xs + ys == xs;
    }
  }

  /** A sum of non-negative terms is non-negative. */
  lemma {:induction false} SumNonNegative(xs: seq<real>)
    requires forall i :: 0 <= i < |xs| ==> xs[i] >= 0.0
    ensures Sum(xs) >= 0.0
  {
    if |xs| > 0 {
      SumNonNegative(xs[..|xs| - 1]);
    }
  }

  /** A sum of non-negative terms is zero exactly when every term is zero. */
  lemma {:induction false} SumZeroIff(xs: seq<real>)
    requires forall i :: 0 <= i < |xs| ==> xs[i] >= 0.0
    ensures Sum(xs) == 0.0 <==> forall i :: 0 <= i < |xs| ==> xs[i] == 0.0
  {
    if |xs| > 0 {
      var init := xs[..|xs| - 1];
      SumZeroIff(init);
      SumNonNegative(init);
    }
  }

  /** The sum of n copies of c is n times c. */
  lemma {:induction false} SumConstant(xs: seq<real>, c: real)
    requires forall i :: 0 <= i < |xs| ==> xs[i] == c
    ensures Sum(xs) == |xs| as real * c
  {
    if |xs| > 0 {
      SumConstant(xs[..|xs| - 1], c);
    }
  }

  /** `np.average(xs)`: `None` stands for the NaN numpy returns on an empty list. */
  function Mean(xs: seq<real>): (m: Option<real>)
    ensures m.None? <==> |xs| == 0
    ensures m.Some? ==> m.value * |xs| as real == Sum(xs)
  {
    if |xs| == 0 then None else Some(Sum(xs) / |xs| as real)
  }

  /** The mean of a constant list is that constant. */
  lemma MeanConstant(xs: seq<real>, c: real)
    requires |xs| > 0
    requires forall i :: 0 <= i < |xs| ==> xs[i] == c
    ensures Mean(xs) == Some(c)
  {
    SumConstant(xs, c);
    var n := |xs| as real;
    assert Sum(xs) / n == (n * c) / n == c;
  }
}
