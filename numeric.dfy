/** Scalar arithmetic of the Swift code, on unbounded reals and integers.
    Sizes and durations (`CGFloat`, `Float`, `Double`) are modelled as `real`;
    the conversion `Int(x)` is truncation toward zero. */
module Numeric {

  function Max(a: real, b: real): real { if a >= b then a else b }

  function Min(a: real, b: real): real { if a <= b then a else b }

  function IntMax(a: int, b: int): int { if a >= b then a else b }

  function IntMin(a: int, b: int): int { if a <= b then a else b }

  /** Swift's `Int(x)` on a finite value: the integer part, rounding toward zero. */
  function Trunc(x: real): (r: int)
    ensures 0.0 <= x ==> r as real <= x < r as real + 1.0
    ensures x < 0.0 ==> r as real - 1.0 < x <= r as real
  {
    if x >= 0.0 then x.Floor else -((-x).Floor)
  }

  /** Swift's `round(x)`: the nearest integer, halfway cases rounded away from zero. */
  function Round(x: real): (r: int)
    ensures 0.0 <= x ==> r as real - 0.5 <= x < r as real + 0.5
    ensures x < 0.0 ==> r as real - 0.5 < x <= r as real + 0.5
  {
    if x >= 0.0 then (x + 0.5).Floor else -((-x + 0.5).Floor)
  }

  /** `min(max(0, p), 100)`: a percentage forced into [0, 100]. */
  function ValidatedPercentage(p: real): (r: real)
    ensures 0.0 <= r <= 100.0
    ensures 0.0 <= p <= 100.0 ==> r == p
    ensures p < 0.0 ==> r == 0.0
    ensures p > 100.0 ==> r == 100.0
  {
    Min(Max(0.0, p), 100.0)
  }

  /** Truncation is monotone. */
  lemma TruncMonotone(x: real, y: real)
    requires x <= y
    ensures Trunc(x) <= Trunc(y)
  {
    if 0.0 <= x {
      assert Trunc(x) as real <= x <= y < Trunc(y) as real + 1.0;
    } else if y < 0.0 {
      assert Trunc(x) as real - 1.0 < x <= y <= Trunc(y) as real;
    }
  }

  /** Multiplying by a positive factor keeps the order of two reals. */
  lemma MulMono(a: real, b: real, c: real)
    requires a <= b && c > 0.0
    ensures a * c <= b * c
  {
    assert b * c - a * c == (b - a) * c;
  }

  lemma MulStrict(a: real, b: real, c: real)
    requires a < b && c > 0.0
    ensures a * c < b * c
  {
    assert b * c - a * c == (b - a) * c;
  }

  lemma MulLe(c: int, a: int, b: int)
    requires c > 0 && a <= b
    ensures c * a <= c * b
  {
    assert c * b - c * a == c * (b - a);
  }

  // Euclidean remainder is determined by any decomposition x == c * q + r with 0 <= r < c.
  lemma ModUnique(x: int, c: int, q: int, r: int)
    requires c > 0 && 0 <= r < c && x == c * q + r
    ensures x % c == r
  {
    var q', r' := x / c, x % c;
    assert x == c * q' + r';
    if q' < q {
      MulLe(c, q' + 1, q);
    } else if q' > q {
      MulLe(c, q + 1, q');
    }
  }

  /** The remainder of a value within one period below 0 and three above. */
  lemma ModCases(x: int, c: int)
    requires c > 0 && -c <= x < 3 * c
    ensures x % c ==
              if x < 0 then x + c
              else if x < c then x
              else if x < 2 * c then x - c
              else x - 2 * c
  {
    if x < 0 {
      ModUnique(x, c, -1, x + c);
    } else if x < c {
      ModUnique(x, c, 0, x);
    } else if x < 2 * c {
      ModUnique(x, c, 1, x - c);
    } else {
      ModUnique(x, c, 2, x - 2 * c);
    }
  }
}
