/** Accumulating sums over lists of confidences: SumFloatArray (whole list and
    leading elements) and Sum2DFloatArray. Floats are modelled as reals. */
module Sums {

  /** The sum of a list, accumulated from the front as the source's loops do. */
  function Sum(s: seq<real>): real
    decreases |s|
  {
    if |s| == 0 then 0.0 else Sum(s[..|s| - 1]) + s[|s| - 1]
  }

  /** How many leading elements the counted SumFloatArray adds: its loop stops
      when the index reaches the count, which a negative count never does. */
  function PrefixLength(len: nat, n: int): nat
  {
    if 0 <= n <= len then n else len
  }

  /** SumFloatArray(ToSum): the sum of all elements. */
  method SumFloatArray(a: seq<real>) returns (r: real)
    ensures r == Sum(a)
  {
    r := 0.0;
    for i := 0 to |a|
      invariant r == Sum(a[..i])
    {
      assert a[..i + 1][..i] == a[..i];
      r := r + a[i];
    }
    assert a[..|a|] == a;
  }

  /** SumFloatArray(ToSum, NumElements): the sum of the first NumElements
      elements, or of all of them when the count is negative or too large. */
  method SumFloatArrayFirst(a: seq<real>, n: int) returns (r: real)
    ensures r == Sum(a[..PrefixLength(|a|, n)])
    ensures (n < 0 || n >= |a|) ==> r == Sum(a)
  {
    r := 0.0;
    var index := 0;
    while index < |a|
      invariant 0 <= index <= PrefixLength(|a|, n)
      invariant r == Sum(a[..index])
    {
      if index == n {
        break;
      }
      assert a[..index + 1][..index] == a[..index];
      r := r + a[index];
      index := index + 1;
    }
    assert a[..|a|] == a;
  }

  /** Entry j of every row. */
  function Column<T>(rows: seq<seq<T>>, j: nat): (c: seq<T>)
    requires forall i :: 0 <= i < |rows| ==> j < |rows[i]|
    ensures |c| == |rows|
  {
    seq(|rows|, i requires 0 <= i < |rows| => rows[i][j])
  }

  /** What Sum2DFloatArray(ToSum, Index) returns: 0 when there are fewer than
      Index + 1 rows, otherwise the sum of ROW Index (not of column Index). */
  function RowSum(a: seq<seq<real>>, index: nat): real
  {
    if |a| < index + 1 then 0.0 else Sum(a[index])
  }

  /** Sum2DFloatArray: returns 0 when there is no row Index, and otherwise adds
      up every entry of that row. */
  method Sum2DFloatArray(a: seq<seq<real>>, index: nat) returns (r: real)
    ensures |a| < index + 1 ==> r == 0.0
    ensures index < |a| ==> r == Sum(a[index])
  {
    r := 0.0;
    if |a| < index + 1 {
      return 0.0;
    }
    var row := a[index];
    for i := 0 to |row|
      invariant r == Sum(row[..i])
    {
      assert row[..i + 1][..i] == row[..i];
      r := r + row[i];
    }
    assert row[..|row|] == row;
  }

  /** Adding one element at the end adds it to the sum. */
  lemma SumSnoc(s: seq<real>, x: real)
    ensures Sum(s + [x]) == Sum(s) + x
  {
    assert (s + [x])[..|s|] == s;
  }

  /** The sum of one more leading element. */
  lemma SumPrefixStep(s: seq<real>, i: nat)
    requires i < |s|
    ensures Sum(s[..i + 1]) == Sum(s[..i]) + s[i]
  {
    assert s[..i + 1] == s[..i] + [s[i]];
    SumSnoc(s[..i], s[i]);
  }

  /** The sum of a concatenation is the sum of the sums. */
  lemma {:induction false} SumConcat(a: seq<real>, b: seq<real>)
    ensures Sum(a + b) == Sum(a) + Sum(b)
    decreases |b|
  {
    if |b| == 0 {
      assert a + b == a;
    } else {
      var b' := b[..|b| - 1];
      assert a + b == (a + b') + [b[|b| - 1]];
      SumSnoc(a + b', b[|b| - 1]);
      SumConcat(a, b');
    }
  }

  /** Dividing every element by d divides the sum by d. */
  lemma {:induction false} SumDivided(s: seq<real>, t: seq<real>, d: real)
    requires d != 0.0 && |t| == |s|
    requires forall i :: 0 <= i < |s| ==> t[i] == s[i] / d
    ensures Sum(t) == Sum(s) / d
    decreases |s|
  {
    if |s| > 0 {
      SumDivided(s[..|s| - 1], t[..|t| - 1], d);
    }
  }

  /** n copies of c add up to n * c. */
  lemma {:induction false} SumConstant(t: seq<real>, c: real)
    requires forall i :: 0 <= i < |t| ==> t[i] == c
    ensures Sum(t) == |t| as real * c
    decreases |t|
  {
    if |t| > 0 {
      SumConstant(t[..|t| - 1], c);
    }
  }

  /** k copies of 1/k add up to 1. */
  lemma SumUniform(t: seq<real>)
    requires |t| > 0
    requires forall i :: 0 <= i < |t| ==> t[i] == 1.0 / |t| as real
    ensures Sum(t) == 1.0
  {
    var k := |t| as real;
    SumConstant(t, 1.0 / k);
    DivTimes(1.0, k);
    assert k * (1.0 / k) == 1.0 / k * k;
  }

  /** Division by a non-zero d is undone by multiplying by d. */
  lemma DivTimes(x: real, d: real)
    requires d != 0.0
    ensures x / d * d == x
  {
  }

  /** A quotient x / d times d is x again. */
  lemma QuotientTimes(q: real, x: real, d: real)
    requires d != 0.0 && q == x / d
    ensures q * d == x
  {
    DivTimes(x, d);
  }

  /** A quotient x / s of 0 <= x <= s lies in [0, 1]. */
  lemma RatioWithin(q: real, x: real, s: real)
    requires 0.0 <= x <= s && s != 0.0 && q == x / s
    ensures 0.0 <= q <= 1.0
  {
    QuotientTimes(q, x, s);
    assert (1.0 - q) * s == s - x;
  }

  /** A list of non-negative values has a non-negative sum. */
  lemma {:induction false} SumNonNegative(s: seq<real>)
    requires forall i :: 0 <= i < |s| ==> s[i] >= 0.0
    ensures Sum(s) >= 0.0
    decreases |s|
  {
    if |s| > 0 {
      SumNonNegative(s[..|s| - 1]);
    }
  }

  /** Over non-negative values the sums of leading elements grow with the
      number of elements. */
  lemma {:induction false} PrefixSumMonotone(s: seq<real>, i: nat, j: nat)
    requires i <= j <= |s|
    requires forall k :: 0 <= k < |s| ==> s[k] >= 0.0
    ensures Sum(s[..i]) <= Sum(s[..j])
    decreases j
  {
    if i < j {
      PrefixSumMonotone(s, i, j - 1);
      SumPrefixStep(s, j - 1);
    }
  }

  /** Over non-negative values every non-empty leading sum is at least the
      first element. */
  lemma PrefixSumAtLeastFirst(s: seq<real>, i: nat)
    requires 0 < i <= |s|
    requires forall k :: 0 <= k < |s| ==> s[k] >= 0.0
    ensures s[0] <= Sum(s[..i])
  {
    PrefixSumMonotone(s, 1, i);
    SumPrefixStep(s, 0);
  }

  /** Bounds on each element bound the sum: n * lo <= Sum <= n * hi. */
  lemma {:induction false} SumBounds(s: seq<real>, lo: real, hi: real)
    requires forall i :: 0 <= i < |s| ==> lo <= s[i] <= hi
    ensures |s| as real * lo <= Sum(s) <= |s| as real * hi
    decreases |s|
  {
    if |s| > 0 {
      var n := |s| as real;
      var s' := s[..|s| - 1];
      assert |s'| as real == n - 1.0;
      SumBounds(s', lo, hi);
      assert Sum(s) == Sum(s') + s[|s| - 1];
      assert n * lo == (n - 1.0) * lo + lo;
      assert n * hi == (n - 1.0) * hi + hi;
    }
  }

  /** A total between n * lo and n * hi has its mean between lo and hi. */
  lemma MeanWithin(total: real, n: real, lo: real, hi: real)
    requires n > 0.0
    requires n * lo <= total <= n * hi
    ensures lo <= total / n <= hi
  {
    assert total / n * n == total;
  }
}
