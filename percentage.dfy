/** How many sticks a progress percentage fills.

    The progress bars compute `Double(count) * (min(max(0, p), 100) / divisor)` and take
    `max(Int(that), 0)` as the number of sticks to fill: the divisor is 100 when the fill
    runs from stick 0, and 200 when it spreads to both sides of the active stick. */
module Percentage {
  import opened Numeric

  /** The number of sticks a percentage stands for, before truncation. */
  function SticksForPercentage(count: nat, percentage: real, divisor: real): (x: real)
    requires divisor > 0.0
    ensures 0.0 <= x
  {
    count as real * (ValidatedPercentage(percentage) / divisor)
  }

  /** The number of sticks to fill: the whole part of the real number of sticks. */
  function FillCount(count: nat, percentage: real, divisor: real): (n: nat)
    requires divisor > 0.0
    ensures n as real <= SticksForPercentage(count, percentage, divisor) < n as real + 1.0
  {
    IntMax(Trunc(SticksForPercentage(count, percentage, divisor)), 0)
  }

  /** A larger percentage never fills fewer sticks. */
  lemma FillCountMonotone(count: nat, p: real, q: real, divisor: real)
    requires divisor > 0.0
    requires p <= q
    ensures FillCount(count, p, divisor) <= FillCount(count, q, divisor)
  {
    var vp, vq := ValidatedPercentage(p), ValidatedPercentage(q);
    assert vq / divisor - vp / divisor == (vq - vp) / divisor;
    assert count as real * (vq / divisor) - count as real * (vp / divisor)
        == count as real * ((vq - vp) / divisor);
    TruncMonotone(SticksForPercentage(count, p, divisor), SticksForPercentage(count, q, divisor));
  }

  /** 0% (or less) fills nothing; 100% (or more) fills every stick of a bar filled from stick 0. */
  lemma FillCountBoundaries(count: nat, p: real)
    ensures p <= 0.0 ==> FillCount(count, p, 100.0) == 0 && FillCount(count, p, 200.0) == 0
    ensures p >= 100.0 ==> FillCount(count, p, 100.0) == count
  {
    if p >= 100.0 {
      assert SticksForPercentage(count, p, 100.0) == count as real;
    }
  }

  /** Below 100% a bar filled from stick 0 leaves its last stick unfilled. */
  lemma FillCountBelowFull(count: nat, p: real)
    requires p < 100.0
    requires count > 0
    ensures FillCount(count, p, 100.0) < count
  {
    var v := ValidatedPercentage(p);
    assert v / 100.0 < 1.0;
    assert SticksForPercentage(count, p, 100.0) == count as real * (v / 100.0) < count as real;
  }

  /** The number of sticks a bar filled from stick 0 fills at percentage `p`: below
      100% the fill boundary is a stick of the bar. */
  function BarFill(count: nat, p: real): (n: nat)
    ensures n as real <= SticksForPercentage(count, p, 100.0) < n as real + 1.0
    ensures p < 100.0 && count > 0 ==> n < count
  {
    var n := FillCount(count, p, 100.0);
    if p < 100.0 && count > 0 then FillCountBelowFull(count, p); n else n
  }

  // Less than half of a positive count, doubled, stays below the count.
  lemma HalfBelow(x: real, h: real, c: real)
    requires 0.0 <= h < 0.5 && c > 0.0 && x == c * h
    ensures 2.0 * x < c
  {
    MulStrict(h, 0.5, c);
  }

  // The integer side of the symmetric fill: a whole part and a rounding of a real
  // whose double is below the count.
  lemma HalfArc(x: real, n: int, r: int, count: int)
    requires n as real <= x < n as real + 1.0
    requires r as real - 0.5 <= x < r as real + 0.5
    requires 2.0 * x < count as real
    ensures 2 * n < count
    ensures r != n ==> 2 * n + 1 < count
  {
    if r != n {
      assert r == n + 1;
    }
  }

  /** Below 100% the two halves of a symmetric fill leave at least one stick unfilled,
      even with the extra stick added when the half-fill rounds up. */
  lemma HalfFillBelowFull(count: nat, p: real)
    requires p < 100.0
    requires count > 0
    ensures 2 * FillCount(count, p, 200.0) < count
    ensures Round(SticksForPercentage(count, p, 200.0)) != FillCount(count, p, 200.0) ==>
              2 * FillCount(count, p, 200.0) + 1 < count
  {
    var c := count as real;
    var h := ValidatedPercentage(p) / 200.0;
    var x := SticksForPercentage(count, p, 200.0);
    HalfBelow(x, h, c);
    HalfArc(x, FillCount(count, p, 200.0), Round(x), count);

  }
}
