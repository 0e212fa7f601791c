/**
 * Arithmetic that the cell's Python code gets from built-ins: `abs`, `int()` on a
 * float, `round(x, 1)`, `sum(xs) / len(xs)` and `sorted` on three values.
 * Floating-point numbers are modelled as exact reals.
 */
module Numbers {

  function Abs(x: real): (r: real)
    ensures r >= 0.0
    ensures r == x || r == -x
  {
    if x < 0.0 then -x else x
  }

  function Max(x: real, y: real): (r: real)
    ensures r >= x && r >= y
    ensures r == x || r == y
  {
    if x < y then y else x
  }

  /** Python's `int(x)` on a float: truncation toward zero. */
  function Trunc(x: real): (n: int)
    ensures x >= 0.0 ==> 0 <= n && n as real <= x < n as real + 1.0
    ensures x < 0.0 ==> n <= 0 && n as real - 1.0 < x <= n as real
  {
    if x >= 0.0 then x.Floor else -((-x).Floor)
  }

  /** A real that has at most one decimal place. */
  predicate OneDecimal(x: real) {
    (x * 10.0).Floor as real == x * 10.0
  }

  /**
   * Python's `round(x, 1)`: the nearest multiple of 0.1, ties going to the
   * even multiple (round half to even).
   */
  function RoundTenth(x: real): real
  {
    var y := x * 10.0;
    var f := y.Floor;
    var frac := y - f as real;
    var n := if frac < 0.5 then f
             else if frac > 0.5 then f + 1
             else if f % 2 == 0 then f else f + 1;
    n as real / 10.0
  }

  /** The rounded value has one decimal and lies within half a tenth of x. */
  lemma RoundTenthProperties(x: real)
    ensures OneDecimal(RoundTenth(x))
    ensures Abs(RoundTenth(x) - x) <= 0.05
  {
    var y := x * 10.0;
    var f := y.Floor;
    var frac := y - f as real;
    var n := if frac < 0.5 then f
             else if frac > 0.5 then f + 1
             else if f % 2 == 0 then f else f + 1;
    assert RoundTenth(x) == n as real / 10.0;
    assert -0.5 <= n as real - y <= 0.5;
    TenthsOf(n, x);
  }

  /** n tenths have one decimal, and lie within 0.05 of x when n is within 0.5 of 10x. */
  lemma TenthsOf(n: int, x: real)
    requires -0.5 <= n as real - x * 10.0 <= 0.5
    ensures OneDecimal(n as real / 10.0)
    ensures Abs(n as real / 10.0 - x) <= 0.05
  {
    assert (n as real / 10.0) * 10.0 == n as real;
  }

  /** Rounding never leaves an interval whose ends have at most one decimal. */
  lemma RoundTenthWithin(x: real, lo: real, hi: real)
    requires OneDecimal(lo) && OneDecimal(hi)
    requires lo <= x <= hi
    ensures lo <= RoundTenth(x) <= hi
  {
    var y := x * 10.0;
    var f := y.Floor;
    var K := (hi * 10.0).Floor;
    var L := (lo * 10.0).Floor;
    assert L as real <= y <= K as real;
    assert f <= K;
    assert L <= f;
    if f == K {
      assert y - f as real == 0.0;
    }
  }

  /** Python's `sum` on a list of floats. */
  function Sum(s: seq<real>): real
  {
    if s == [] then 0.0 else Sum(s[..|s| - 1]) + s[|s| - 1]
  }

  lemma {:induction false} SumBounds(s: seq<real>, lo: real, hi: real)
    requires forall i :: 0 <= i < |s| ==> lo <= s[i] <= hi
    ensures |s| as real * lo <= Sum(s) <= |s| as real * hi
  {
    if s != [] {
      SumBounds(s[..|s| - 1], lo, hi);
    }
  }

  /** `sum(s) / len(s)`; only defined on a non-empty list. */
  function Mean(s: seq<real>): real
    requires |s| > 0
  {
    Sum(s) / |s| as real
  }

  /** The mean of values that all lie in [lo, hi] lies in [lo, hi]. */
  lemma MeanBounds(s: seq<real>, lo: real, hi: real)
    requires |s| > 0
    requires forall i :: 0 <= i < |s| ==> lo <= s[i] <= hi
    ensures lo <= Mean(s) <= hi
  {
    SumBounds(s, lo, hi);
    DivideBounds(Sum(s), |s| as real, lo, hi);
  }

  lemma DivideBounds(x: real, n: real, lo: real, hi: real)
    requires n > 0.0 && n * lo <= x <= n * hi
    ensures lo <= x / n <= hi
  {
    assert x / n * n == x;
  }

  /** `r` lists a, b and c in some order. */
  predicate IsPermutation3(r: seq<real>, a: real, b: real, c: real) {
    r == [a, b, c] || r == [a, c, b] || r == [b, a, c] ||
    r == [b, c, a] || r == [c, a, b] || r == [c, b, a]
  }

  /** Three values as Python's `sorted([a, b, c], reverse=True)` returns them. */
  function SortDesc3(a: real, b: real, c: real): (r: seq<real>)
    ensures |r| == 3
    ensures r[0] >= r[1] >= r[2]
  {
    if a >= b then
      if b >= c then [a, b, c]
      else if a >= c then [a, c, b]
      else [c, a, b]
    else
      if a >= c then [b, a, c]
      else if b >= c then [b, c, a]
      else [c, b, a]
  }

  /** Three values as Python's `sorted([a, b, c])` returns them. */
  function SortAsc3(a: real, b: real, c: real): (r: seq<real>)
    ensures |r| == 3
    ensures r[0] <= r[1] <= r[2]
  {
    var d := SortDesc3(a, b, c);
    [d[2], d[1], d[0]]
  }

  /** Sorting only reorders: the result lists a, b and c. */
  lemma SortPermutes(a: real, b: real, c: real)
    ensures IsPermutation3(SortDesc3(a, b, c), a, b, c)
    ensures IsPermutation3(SortAsc3(a, b, c), a, b, c)
    ensures a in SortDesc3(a, b, c) && b in SortDesc3(a, b, c) && c in SortDesc3(a, b, c)
  {
  }

  /** Sorting three values does not depend on the order they are given in. */
  lemma SortDesc3Symmetric(a: real, b: real, c: real)
    ensures SortDesc3(a, b, c) == SortDesc3(b, a, c)
    ensures SortDesc3(a, b, c) == SortDesc3(a, c, b)
    ensures SortDesc3(a, b, c) == SortDesc3(c, b, a)
  {
  }
}
