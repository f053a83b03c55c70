/**
 * Numeric conventions of the Java code: truncating casts, integer division by two,
 * and the two extreme double constants the code starts its searches from.
 */
module Numerics {

  datatype Option<T> = None | Some(value: T)

  /** Axis indices used by every per-axis loop of the code. */
  const X: nat := 0
  const Y: nat := 1
  const Z: nat := 2

  /** Java's `(int)` / `(long)` cast of a double: the fraction is dropped, rounding toward zero. */
  function Trunc(x: real): (r: int)
    ensures x >= 0.0 ==> r >= 0 && r as real <= x < r as real + 1.0
    ensures x < 0.0 ==> r <= 0 && r as real - 1.0 < x <= r as real
  {
    if x >= 0.0 then x.Floor else -((-x).Floor)
  }

  /** Java's `a / 2` on an int or long: the quotient is rounded toward zero. */
  function Half(a: int): (q: int)
    ensures a >= 0 ==> 0 <= a - 2 * q <= 1
    ensures a < 0 ==> -1 <= a - 2 * q <= 0
  {
    if a >= 0 then a / 2 else -((-a) / 2)
  }

  function Abs(x: real): (r: real)
    ensures r >= 0.0 && (r == x || r == -x)
  {
    if x < 0.0 then -x else x
  }

  function Pow2(n: nat): (r: nat)
    ensures r >= 1
    ensures n > 0 ==> r >= 2
  {
    if n == 0 then 1 else 2 * Pow2(n - 1)
  }

  /** `Double.MIN_VALUE`: the smallest positive double, 2^-1074. */
  const DoubleMinValue: real := 1.0 / Pow2(1074) as real

  /** `Double.MAX_VALUE`: the largest finite double, (2 - 2^-52) * 2^1023. */
  const DoubleMaxValue: real := (2.0 - 1.0 / Pow2(52) as real) * Pow2(1023) as real

  lemma DoubleMinValueBounds()
    ensures 0.0 < DoubleMinValue < 1.0
  {
    var p := Pow2(1074) as real;
    assert p >= 2.0;
  }

  lemma DoubleMaxValueBounds()
    ensures DoubleMaxValue >= 1.0
  {
    var p52 := Pow2(52) as real;
    var p := Pow2(1023) as real;
    assert 1.0 / p52 <= 1.0;
    assert 2.0 - 1.0 / p52 >= 1.0;
    assert (2.0 - 1.0 / p52) * p >= 1.0 * p;
  }

  lemma DivOfProduct(x: real, w: real)
    requires w != 0.0
    ensures (x * w) / w == x
  {
  }

  lemma DivOfDiv(x: real, b: real, c: real)
    requires b != 0.0 && c != 0.0
    ensures x / (b * c) == (x / c) / b
  {
    var q := x / c;
    assert q * c == x;
    assert (q / b) * (b * c) == q * c;
  }

  lemma DivAtLeast(v: real, w: real, k: real)
    requires w > 0.0 && v >= k * w
    ensures v / w >= k
  {
    assert (v / w - k) * w == v - k * w;
  }

  lemma DivGreater(v: real, w: real, k: real)
    requires w > 0.0 && v > k * w
    ensures v / w > k
  {
    assert (v / w - k) * w == v - k * w;
  }

  lemma DivLess(v: real, w: real, k: real)
    requires w > 0.0 && v < k * w
    ensures v / w < k
  {
    assert (v / w - k) * w == v - k * w;
  }

  lemma DivAtMost(v: real, w: real, k: real)
    requires w > 0.0 && v <= k * w
    ensures v / w <= k
  {
    assert (k - v / w) * w == k * w - v;
  }

  /** Sum of a list of doubles, added up front to back; 0 for the empty list. */
  function Sum(s: seq<real>): real
  {
    if s == [] then 0.0 else Sum(s[..|s| - 1]) + s[|s| - 1]
  }

  lemma SumAppend(s: seq<real>, x: real)
    ensures Sum(s + [x]) == Sum(s) + x
  {
    assert (s + [x])[..|s|] == s;
  }

  /** Truncation keeps the order of its arguments. */
  lemma TruncMonotone(x: real, y: real)
    requires x <= y
    ensures Trunc(x) <= Trunc(y)
  {
    if x >= 0.0 {
      assert x.Floor <= y.Floor;
    } else if y < 0.0 {
      assert (-y).Floor <= (-x).Floor;
    }
  }

  /** Truncation is symmetric about zero, unlike flooring. */
  lemma TruncOdd(x: real)
    ensures Trunc(-x) == -Trunc(x)
  {
  }
}
