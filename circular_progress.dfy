/** `CircularProgress`: a ring of sticks whose filled arc follows a percentage and
    travels round the ring.

    Each tick below 100% repaints every stick unfilled, then fills `n` sticks on each
    side of the active stick (`n` is the whole part of count * p / 200), adds one more
    stick after them when count * p / 200 rounds up, or the active stick itself when
    nothing else is filled; then the active index moves on by one and wraps from the
    last stick to 0. At 100% or more every stick is painted filled and the ticks stop.
    No stick's offset or height is ever written. */
module CircularProgress {
  import opened Numeric
  import opened Colors
  import opened Sweep
  import opened Percentage
  import opened SticksAnimations

  /** Stick `j` lies on the cyclic arc of `len` sticks that starts at `start` (taken
      modulo `count`). */
  predicate InArc(j: int, start: int, len: int, count: int)
    requires count > 0
  {
    (j - start) % count < len
  }

  /** The number of sticks a tick fills: twice the half-fill count, plus one when the
      half-fill rounds up or is 0. */
  function ArcLength(count: nat, percentage: real): (len: nat)
    ensures len >= 1
    // the arc covers count * p / 100 sticks to within one stick
    ensures (len - 1) as real <= 2.0 * SticksForPercentage(count, percentage, 200.0) < (len + 1) as real
    ensures len == 2 * FillCount(count, percentage, 200.0) || len == 2 * FillCount(count, percentage, 200.0) + 1
  {
    var x := SticksForPercentage(count, percentage, 200.0);
    var n := FillCount(count, percentage, 200.0);
    assert Round(x) == n || Round(x) == n + 1;
    if Round(x) != n then
      assert n as real + 0.5 <= x;
      2 * n + 1
    else if n == 0 then
      1
    else
      assert x < n as real + 0.5;
      2 * n
  }

  /** Below 100% the arc never covers the whole ring (of at least two sticks). */
  lemma ArcLeavesAGap(count: nat, percentage: real)
    requires count >= 2 && percentage < 100.0
    ensures ArcLength(count, percentage) < count
  {
    HalfFillBelowFull(count, percentage);
  }

  // Adding one stick before an arc and one after it.
  lemma {:induction false} ArcExtend(j: int, s: int, len: int, c: int)
    requires c > 0 && 0 <= j < c
    requires -c < s - 1 && s < c && 0 <= len && len + 2 <= c && s + len < 2 * c
    ensures InArc(j, s - 1, len + 2, c) <==>
              InArc(j, s, len, c) || j == (s - 1 + c) % c || j == (s + len + c) % c
  {
    ModCases(j - s, c);
    ModCases(j - (s - 1), c);
    ModCases(s - 1 + c, c);
    ModCases(s + len + c, c);
  }

  // Adding one stick after an arc.
  lemma {:induction false} ArcExtendEnd(j: int, s: int, len: int, c: int)
    requires c > 0 && 0 <= j < c
    requires -c < s < c && 0 <= len && len + 1 <= c && s + len < 2 * c
    ensures InArc(j, s, len + 1, c) <==> InArc(j, s, len, c) || j == (s + len + c) % c
  {
    ModCases(j - s, c);
    ModCases(s + len + c, c);
  }

  /** `s` with the sticks of the arc painted `filled` and all others `unfilled`. */
  function Painted(s: seq<Stick>, start: int, len: int, filled: Color, unfilled: Color): (r: seq<Stick>)
    requires |s| > 0
    ensures |r| == |s|
  {
    seq(|s|, j requires 0 <= j < |s| =>
      s[j].(color := if InArc(j, start, len, |s|) then filled else unfilled))
  }

  /** `s` with every stick painted `c`. */
  function Recolored(s: seq<Stick>, c: Color): (r: seq<Stick>)
    ensures |r| == |s|
  {
    seq(|s|, j requires 0 <= j < |s| => s[j].(color := c))
  }

  /** An empty arc leaves every stick unfilled. */
  lemma PaintedEmpty(s: seq<Stick>, start: int, filled: Color, unfilled: Color)
    requires |s| > 0 && 0 <= start < |s|
    ensures Painted(s, start, 0, filled, unfilled) == Recolored(s, unfilled)
  {
    forall j | 0 <= j < |s|
      ensures !InArc(j, start, 0, |s|)
    {
    }
  }

  /** `t` with stick `i` repainted `c`. */
  function Repainted(t: seq<Stick>, i: int, c: Color): seq<Stick>
    requires 0 <= i < |t|
  {
    t[i := t[i].(color := c)]
  }

  /** One pass of the fill loop: the arc of `2k` sticks round `at` grows by the stick
      at `at + k` and the stick at `at - 1 - k`. */
  lemma PaintedGrow(s: seq<Stick>, c: int, at: int, k: int, filled: Color, unfilled: Color)
    requires c == |s| && 0 <= at < c && 0 <= k && 2 * k + 2 <= c
    ensures 0 <= (at + k + c) % c < c && 0 <= ((at - 1) - k + c) % c < c
    ensures Painted(s, at - (k + 1), 2 * (k + 1), filled, unfilled) ==
              Repainted(Repainted(Painted(s, at - k, 2 * k, filled, unfilled),
                                  (at + k + c) % c, filled),
                        ((at - 1) - k + c) % c, filled)
  {
    var a, b := Painted(s, at - (k + 1), 2 * (k + 1), filled, unfilled),
                Repainted(Repainted(Painted(s, at - k, 2 * k, filled, unfilled),
                                    (at + k + c) % c, filled), ((at - 1) - k + c) % c, filled);
    forall j | 0 <= j < c
      ensures a[j] == b[j]
    {
      ArcExtend(j, at - k, 2 * k, c);
      assert at - k - 1 == at - (k + 1) && 2 * k + 2 == 2 * (k + 1);
      assert at - k + 2 * k + c == at + k + c && at - k - 1 + c == (at - 1) - k + c;
    }
  }


  /** The extra stick after the fill loop: the arc of `2n` sticks round `at` grows by
      the stick at `at + n`. */
  lemma PaintedGrowEnd(s: seq<Stick>, c: int, at: int, n: int, filled: Color, unfilled: Color)
    requires c == |s| && 0 <= at < c && 0 <= n && 2 * n + 1 <= c
    ensures 0 <= (at + n + c) % c < c
    ensures Painted(s, at - n, 2 * n + 1, filled, unfilled) ==
              Repainted(Painted(s, at - n, 2 * n, filled, unfilled), (at + n + c) % c, filled)
  {
    var a, b := Painted(s, at - n, 2 * n + 1, filled, unfilled),
                Repainted(Painted(s, at - n, 2 * n, filled, unfilled), (at + n + c) % c, filled);
    forall j | 0 <= j < c
      ensures a[j] == b[j]
    {
      ArcExtendEnd(j, at - n, 2 * n, c);
      assert at - n + 2 * n + c == at + n + c;
    }
  }


  // The integer facts the fill loop of a tick relies on.
  lemma ArcShape(count: nat, p: real)
    requires count >= 2 && p < 100.0
    ensures var n := FillCount(count, p, 200.0);
            var up := Round(SticksForPercentage(count, p, 200.0)) != n;
            2 * n < count && (up ==> 2 * n + 1 < count) &&
            ArcLength(count, p) == (if up then 2 * n + 1 else if n == 0 then 1 else 2 * n)
  {
    HalfFillBelowFull(count, p);
  }

  class Sequencer {
    const sticks: array<Stick>
    const config: RingConfig
    const filledColor: Color
    const unfilledColor: Color
    /** The stick the next tick centres the arc on. */
    var index: int
    /** False once a tick has seen 100% or more: no further tick is scheduled. */
    var running: bool

    ghost predicate Valid()
      reads this
    {
      sticks.Length == config.stickCount == 26 && 0 <= index < sticks.Length
    }

    /** No stick is swung, and every stick has the ring's stick height. */
    ghost predicate AtRest()
      reads this, sticks
    {
      forall j :: 0 <= j < sticks.Length ==>
        sticks[j].offset == 0.0 && sticks[j].height == config.stickHeight
    }

    constructor (width: real, height: real, filledColor: Color, unfilledColor: Color,
                 duration: real)
      requires Min(width, height) != 0.0
      ensures Valid() && AtRest() && fresh(sticks)
      ensures config == RingLayout(width, height, duration)
      ensures this.filledColor == filledColor && this.unfilledColor == unfilledColor
      ensures forall j :: 0 <= j < sticks.Length ==>
                sticks[j] == Stick(0.0, config.stickHeight, unfilledColor)
      ensures index == 0 && running
    {
      var c := RingLayout(width, height, duration);
      config := c;
      this.filledColor := filledColor;
      this.unfilledColor := unfilledColor;
      sticks := new Stick[c.stickCount](_ => Stick(0.0, c.stickHeight, unfilledColor));
      index := 0;
      running := true;
    }

    /** Paint the stick at `at` taken round the ring: `(at + count) % count`. */
    method UpdateStickColor(at: int, color: Color)
      requires Valid() && -sticks.Length <= at
      modifies sticks
      ensures 0 <= (at + sticks.Length) % sticks.Length < sticks.Length
      ensures sticks[..] == Repainted(old(sticks[..]), (at + sticks.Length) % sticks.Length, color)
    {
      var adjustedIndex := (at + sticks.Length) % sticks.Length;
      sticks[adjustedIndex] := sticks[adjustedIndex].(color := color);
    }

    /** Paint every stick. */
    method ChangeSticksColor(color: Color)
      requires Valid()
      modifies sticks
      ensures sticks[..] == Recolored(old(sticks[..]), color)
    {
      for i := 0 to sticks.Length
        invariant sticks[..] == PaintedPrefix(old(sticks[..]), i, color)
      {
        ModCases(i + sticks.Length, sticks.Length);
        UpdateStickColor(i, color);
      }
    }

    /** The fill loop of a tick: paint the `n` sticks from the active one on and the `n`
        sticks before it, on a ring where nothing is filled yet. */
    method FillAround(ghost s0: seq<Stick>, n: nat)
      requires Valid() && 2 * n < sticks.Length && |s0| == sticks.Length
      requires sticks[..] == Painted(s0, index, 0, filledColor, unfilledColor)
      modifies sticks
      ensures sticks[..] == Painted(s0, index - n, 2 * n, filledColor, unfilledColor)
    {
      for k := 0 to n
        invariant sticks[..] == Painted(s0, index - k, 2 * k, filledColor, unfilledColor)
      {
        GrowArc(s0, k);
      }
    }

    /** One pass of the fill loop: paint stick `index + k` and stick `index - 1 - k`. */
    method GrowArc(ghost s0: seq<Stick>, k: nat)
      requires Valid() && 2 * k + 2 <= sticks.Length && |s0| == sticks.Length
      requires sticks[..] == Painted(s0, index - k, 2 * k, filledColor, unfilledColor)
      modifies sticks
      ensures sticks[..] == Painted(s0, index - (k + 1), 2 * (k + 1), filledColor, unfilledColor)
    {
      PaintedGrow(s0, sticks.Length, index, k, filledColor, unfilledColor);
      UpdateStickColor(index + k, filledColor);
      UpdateStickColor((index - 1) - k, filledColor);
    }

    /** The step after the fill loop: one more stick after the arc when the half-fill
        rounds up, or else the active stick itself when nothing is filled. */
    method FillExtra(ghost s0: seq<Stick>, n: nat, roundsUp: bool)
      requires Valid() && 2 * n < sticks.Length && |s0| == sticks.Length
      requires roundsUp ==> 2 * n + 1 < sticks.Length
      requires sticks[..] == Painted(s0, index - n, 2 * n, filledColor, unfilledColor)
      modifies sticks
      ensures sticks[..] == Painted(s0, index - n, if roundsUp then 2 * n + 1 else if n == 0 then 1 else 2 * n,
                                    filledColor, unfilledColor)
    {
      if roundsUp {
        PaintedGrowEnd(s0, sticks.Length, index, n, filledColor, unfilledColor);
        UpdateStickColor(index + n, filledColor);
      } else if n == 0 {
        PaintedGrowEnd(s0, sticks.Length, index, 0, filledColor, unfilledColor);
        UpdateStickColor(index, filledColor);
      }
    }

    /** Paint the arc for percentage `p` round the active stick, and every other
        stick unfilled. */
    method Update(p: real)
      requires Valid() && p < 100.0
      modifies sticks
      ensures sticks[..] == Painted(old(sticks[..]), index - FillCount(sticks.Length, p, 200.0),
                                    ArcLength(sticks.Length, p), filledColor, unfilledColor)
    {
      var c := sticks.Length;
      ghost var s0 := sticks[..];
      ChangeSticksColor(unfilledColor);
      PaintedEmpty(s0, index, filledColor, unfilledColor);
      var sticksAccordingToPercentage := SticksForPercentage(c, p, 200.0);
      var n := FillCount(c, p, 200.0);
      var roundsUp := Round(sticksAccordingToPercentage) != n;
      ArcShape(c, p);
      FillAround(s0, n);
      FillExtra(s0, n, roundsUp);
    }

    /** Move the active index on by one, wrapping from the last stick to 0. */
    method Reset()
      requires Valid()
      modifies this`index
      ensures Valid() && index == WrapNext(old(index), sticks.Length - 1)
    {
      index := if index == sticks.Length - 1 then 0 else index + 1;
    }

    /** One timer tick with the current percentage `p`. */
    method Tick(p: real)
      requires Valid() && running
      modifies this, sticks
      ensures Valid()
      ensures p >= 100.0 ==>
                (!running && index == old(index) &&
                 sticks[..] == Recolored(old(sticks[..]), filledColor))
      ensures p < 100.0 ==>
                (running && index == WrapNext(old(index), sticks.Length - 1) &&
                 sticks[..] == Painted(old(sticks[..]), old(index) - FillCount(sticks.Length, p, 200.0),
                                       ArcLength(sticks.Length, p), filledColor, unfilledColor))
      ensures old(AtRest()) ==> AtRest()
    {
      if p < 100.0 {
        Update(p);
        Reset();
      } else {
        ChangeSticksColor(filledColor);
        running := false;
      }
    }

    /** A change of the bound percentage: the sweep restarts at stick 0 only when the
        previous value was exactly 100. */
    method PercentageChanged(oldValue: real)
      requires Valid()
      modifies this
      ensures Valid()
      ensures oldValue == 100.0 ==> index == 0 && running
      ensures oldValue != 100.0 ==> index == old(index) && running == old(running)
    {
      if oldValue == 100.0 {
        index, running := 0, true;
      }
    }
  }

  /** The stick `k` places after `at` round a ring of `c` sticks. */
  function Ahead(at: int, k: int, c: int): int
    requires c > 0
  {
    (at + k) % c
  }

  /** The stick `k + 1` places before `at` round a ring of `c` sticks. */
  function Behind(at: int, k: int, c: int): int
    requires c > 0
  {
    (at - 1 - k) % c
  }

  /** The arc painted at `at` holds the active stick, the `n` sticks before it and the
      `n` sticks from it on, and reaches one stick further exactly when the half-fill
      rounds up or is 0. */
  lemma ArcAroundActive(at: int, count: nat, p: real)
    requires count >= 2 && 0 <= at < count && p < 100.0
    ensures var n := FillCount(count, p, 200.0);
            var len := ArcLength(count, p);
            InArc(at, at - n, len, count) &&
            (forall k | 0 <= k < n ::
               InArc(Ahead(at, k, count), at - n, len, count) &&
               InArc(Behind(at, k, count), at - n, len, count)) &&
            (InArc(Ahead(at, n, count), at - n, len, count) <==> len == 2 * n + 1)
  {
    ArcShape(count, p);
    ArcMembers(at, FillCount(count, p, 200.0), ArcLength(count, p), count);
  }

  /** Index arithmetic of an arc of `2n` or `2n + 1` sticks that starts `n` sticks before
      `at`, on a ring longer than the arc. */
  lemma ArcMembers(at: int, n: int, len: int, c: int)
    requires 0 <= at < c && 0 <= n && 2 * n <= len <= 2 * n + 1 && 1 <= len < c
    ensures InArc(at, at - n, len, c)
    ensures forall k | 0 <= k < n ::
              InArc(Ahead(at, k, c), at - n, len, c) && InArc(Behind(at, k, c), at - n, len, c)
    ensures InArc(Ahead(at, n, c), at - n, len, c) <==> len == 2 * n + 1
  {
    ModCases(n, c);
    ModCases(at + n, c);
    ModCases((at + n) % c - (at - n), c);
    forall k | 0 <= k < n
      ensures InArc(Ahead(at, k, c), at - n, len, c) && InArc(Behind(at, k, c), at - n, len, c)
    {
      ArcSide(at, n, len, c, k);
    }
  }

  lemma ArcSide(at: int, n: int, len: int, c: int, k: int)
    requires 0 <= at < c && 0 <= k < n && 2 * n <= len && len < c
    ensures InArc(Ahead(at, k, c), at - n, len, c) && InArc(Behind(at, k, c), at - n, len, c)
  {
    ModCases(at + k, c);
    ModCases((at + k) % c - (at - n), c);
    ModCases(at - 1 - k, c);
    ModCases((at - 1 - k) % c - (at - n), c);
  }
}
