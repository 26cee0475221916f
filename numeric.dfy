/**
  Integer and float-to-integer arithmetic as Kotlin performs it.

  Dafny's `/` on `int` is Euclidean; Kotlin's `Int`/`Long` division truncates
  toward zero, and `Float.toInt()` also truncates toward zero. Both are written
  out here, together with the sums and integer means the statistics code takes.
 */
module Numeric {

  /**
    Kotlin integer division `a / b`: the quotient truncated toward zero, so
    that the remainder `a - q * b` is smaller than `b` in magnitude and has
    the sign of the dividend (Kotlin's `%`).
   */
  function TruncDiv(a: int, b: int): (q: int)
    requires b != 0
    ensures var r := a - q * b;
      (if r < 0 then -r else r) < (if b < 0 then -b else b) && (r == 0 || (r > 0) == (a > 0))
  {
    var x: nat := if a < 0 then -a else a;
    var y: nat := if b < 0 then -b else b;
    var d := x / y;
    DivBounds(x, y);
    var q := if (a < 0) == (b < 0) then d else -d;
    assert q * b == (if a < 0 then -(d * y) else d * y) by {
      if b < 0 {
        assert b + y == 0;
        assert q * b == -(q * y);
      }
    }
    q
  }

  lemma DivBounds(x: nat, y: nat)
    requires 0 < y
    ensures 0 <= x / y
    ensures (x / y) * y <= x < (x / y) * y + y
  {
    assert x == (x / y) * y + x % y;
  }

  /** On a positive divisor the quotient brackets the dividend from the zero side. */
  lemma TruncDivBrackets(a: int, n: int)
    requires 0 < n
    ensures var q := TruncDiv(a, n);
      (0 <= a ==> 0 <= q && q * n <= a < q * n + n) && (a < 0 ==> q * n - n < a <= q * n)
  {
    if 0 <= a {
      TruncDivNonNegative(a, n);
      DivBounds(a, n);
    }
  }

  /** On non-negative operands Kotlin division agrees with Dafny's Euclidean one. */
  lemma TruncDivNonNegative(a: int, n: int)
    requires 0 <= a && 0 < n
    ensures TruncDiv(a, n) == a / n
  {
  }

  /** `Float.toInt()` on a finite value: truncation toward zero. */
  function FloatToInt(x: real): (n: int)
    ensures 0.0 <= x ==> n as real <= x < n as real + 1.0
    ensures x < 0.0 ==> n as real - 1.0 < x <= n as real
  {
    if x >= 0.0 then x.Floor else -((-x).Floor)
  }

  /** `sumOf` over a list of integers: 0 for the empty list, and never negative when no term is. */
  function Sum(xs: seq<int>): (s: int)
    ensures xs == [] ==> s == 0
    ensures (forall i :: 0 <= i < |xs| ==> 0 <= xs[i]) ==> 0 <= s
  {
    if xs == [] then 0
    else
      assert forall i :: 0 <= i < |xs[1..]| ==> xs[1..][i] == xs[i + 1];
      xs[0] + Sum(xs[1..])
  }

  /** Appending a value adds it to the sum. */
  lemma {:induction false} SumAppend(xs: seq<int>, x: int)
    ensures Sum(xs + [x]) == Sum(xs) + x
  {
    if xs != [] {
      assert (xs + [x])[1..] == xs[1..] + [x];
      SumAppend(xs[1..], x);
    }
  }

  ghost predicate AllWithin(xs: seq<int>, lo: int, hi: int)
  {
    forall i :: 0 <= i < |xs| ==> lo <= xs[i] <= hi
  }

  /** A sum of n values that lie in [lo, hi] lies in [n * lo, n * hi]. */
  lemma {:induction false} SumWithin(xs: seq<int>, lo: int, hi: int)
    requires AllWithin(xs, lo, hi)
    ensures lo * |xs| <= Sum(xs) <= hi * |xs|
  {
    if xs != [] {
      var tail := xs[1..];
      assert AllWithin(tail, lo, hi) by {
        forall i | 0 <= i < |tail| ensures lo <= tail[i] <= hi {
          assert tail[i] == xs[i + 1];
        }
      }
      SumWithin(tail, lo, hi);
      assert lo * |xs| == lo * |tail| + lo;
      assert hi * |xs| == hi * |tail| + hi;
    }
  }

  lemma MulCancel(p: int, c: int, n: int)
    requires 0 < n && p * n <= c * n
    ensures p <= c
  {
  }

  lemma MulCancelStrict(p: int, c: int, n: int)
    requires 0 < n && p * n < c * n
    ensures p < c
  {
  }

  lemma QuotientAbove(q: int, lo: int, n: int)
    requires 0 < n && lo * n < q * n + n
    ensures lo <= q
  {
    assert (q + 1) * n == q * n + n;
    MulCancelStrict(lo, q + 1, n);
  }

  lemma QuotientBelow(q: int, hi: int, n: int)
    requires 0 < n && q * n - n < hi * n
    ensures q <= hi
  {
    assert (q - 1) * n == q * n - n;
    MulCancelStrict(q - 1, hi, n);
  }

  /**
    The integer mean `Sum(xs) / |xs|` (Kotlin division) of values in [lo, hi]
    lies in [lo, hi] as well: truncation never leaves the range of the samples.
   */
  lemma MeanWithin(xs: seq<int>, lo: int, hi: int)
    requires xs != [] && AllWithin(xs, lo, hi)
    ensures lo <= TruncDiv(Sum(xs), |xs|) <= hi
  {
    var n, s := |xs|, Sum(xs);
    SumWithin(xs, lo, hi);
    var q := TruncDiv(s, n);
    TruncDivBrackets(s, n);
    if s >= 0 {
      MulCancel(q, hi, n);
      QuotientAbove(q, lo, n);
    } else {
      MulCancel(lo, q, n);
      QuotientBelow(q, hi, n);
    }
  }
}
