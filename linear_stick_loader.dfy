/** `LinearStickLoader`: a row of sticks sized from the screen, waving forward and
    back forever.

    The sweep and its colour rule are those of `LinearLoading`; the differences are
    the sizing (clamped to the screen, with the stick count asked for by the caller),
    a stick record without a stored height, and a height drawn from the swing. */
module LinearStickLoader {
  import opened Numeric
  import opened Colors
  import opened Sweep
  import LinearLoading

  /** One dash of this loader: its swing offset and its colour. */
  datatype Stick = Stick(offset: real, color: Color)

  /** Sizing of the loader, fixed at construction. */
  datatype Layout = Layout(
    stickCount: int,
    spacing: real,
    stickWidth: real,
    stickHeight: real,
    perStickDuration: real)

  /** The stick count: as many as asked for (at least 3), but one fewer than the whole
      slots of one stick and one gap that fit across the screen. */
  function StickCount(requested: int, screenWidth: real, stickWidth: real, spacing: real): (n: int)
    requires stickWidth + spacing > 0.0
    ensures n <= IntMax(requested, 3)
    ensures n <= Trunc(screenWidth / (stickWidth + spacing)) - 1
    ensures n == IntMax(requested, 3) || n == Trunc(screenWidth / (stickWidth + spacing)) - 1
  {
    IntMin(Trunc(screenWidth / (stickWidth + spacing)) - 1, IntMax(requested, 3))
  }

  /** The stick height: at least one gap plus 10, but 50 short of the screen height; the
      cap wins when the two conflict. */
  function StickHeight(stickHeight: real, spacing: real, screenHeight: real): (h: real)
    ensures h <= screenHeight - 50.0
    ensures spacing + 10.0 <= screenHeight - 50.0 ==> spacing + 10.0 <= h
    ensures h == stickHeight || h == spacing + 10.0 || h == screenHeight - 50.0
    ensures spacing + 10.0 <= stickHeight <= screenHeight - 50.0 ==> h == stickHeight
    ensures stickHeight < spacing + 10.0 <= screenHeight - 50.0 ==> h == spacing + 10.0
    ensures screenHeight - 50.0 < Max(stickHeight, spacing + 10.0) ==> h == screenHeight - 50.0
  {
    Min(Max(stickHeight, spacing + 10.0), screenHeight - 50.0)
  }

  /** The clamped sizes and the count. The count is below 1 on a screen narrower than two
      slots; the loader cannot be built there, so the layout requires a count of 1 or more. */
  function LoaderLayout(requested: int, spacing: real, stickWidth: real, stickHeight: real,
                        duration: real, screenWidth: real, screenHeight: real): (c: Layout)
    requires StickCount(requested, screenWidth, Max(stickWidth, 10.0), Max(spacing, 0.0)) >= 1
    ensures c.stickWidth >= 10.0 && (stickWidth >= 10.0 ==> c.stickWidth == stickWidth)
    ensures stickWidth < 10.0 ==> c.stickWidth == 10.0
    ensures c.spacing >= 0.0 && (spacing >= 0.0 ==> c.spacing == spacing)
    ensures spacing < 0.0 ==> c.spacing == 0.0
    ensures c.stickHeight == StickHeight(stickHeight, c.spacing, screenHeight)
    ensures c.stickCount == StickCount(requested, screenWidth, c.stickWidth, c.spacing) >= 1
    // a full lap of the row lasts `duration`, but never less than one second
    ensures c.perStickDuration * c.stickCount as real == Max(duration, 1.0)
  {
    var adjustedStickWidth := Max(stickWidth, 10.0);
    var adjustedSpacing := Max(spacing, 0.0);
    var adjustedStickHeight := StickHeight(stickHeight, adjustedSpacing, screenHeight);
    var count := StickCount(requested, screenWidth, adjustedStickWidth, adjustedSpacing);
    Layout(count, adjustedSpacing, adjustedStickWidth, adjustedStickHeight, PerStickDuration(duration, count))
  }

  /** The duration of one stick's animation: `max(d / n, 1 / n)`, so that a lap of `n`
      sticks lasts `max(d, 1)`. */
  function PerStickDuration(duration: real, count: int): (d: real)
    requires count >= 1
    ensures d * count as real == Max(duration, 1.0)
  {
    var r := Max(duration / count as real, 1.0 / count as real);
    PerStickDurationLap(duration, count);
    r
  }

  lemma PerStickDurationLap(duration: real, count: int)
    requires count >= 1
    ensures Max(duration / count as real, 1.0 / count as real) * count as real == Max(duration, 1.0)
  {
    var n := count as real;
    assert (duration / n) * n == duration;
    assert (1.0 / n) * n == 1.0;
    if duration >= 1.0 {
      MulMono(1.0, duration, 1.0 / n);
    } else {
      MulMono(duration, 1.0, 1.0 / n);
    }
  }

  /** The row fits on the screen with a slot to spare: `count + 1` slots of one stick and
      one gap are no wider than the screen. */
  lemma RowFitsScreen(requested: int, spacing: real, stickWidth: real, stickHeight: real,
                      duration: real, screenWidth: real, screenHeight: real)
    requires StickCount(requested, screenWidth, Max(stickWidth, 10.0), Max(spacing, 0.0)) >= 1
    ensures var c := LoaderLayout(requested, spacing, stickWidth, stickHeight, duration,
                                  screenWidth, screenHeight);
            (c.stickCount + 1) as real * (c.stickWidth + c.spacing) <= screenWidth
  {
    var c := LoaderLayout(requested, spacing, stickWidth, stickHeight, duration, screenWidth, screenHeight);
    var slot := c.stickWidth + c.spacing;
    assert c.stickCount + 1 <= Trunc(screenWidth / slot);
    SlotsFit(screenWidth, slot, c.stickCount + 1);
  }

  // Any positive count up to `Int(width / slot)` of slots fits in the width.
  lemma SlotsFit(width: real, slot: real, m: int)
    requires slot > 0.0 && 1 <= m <= Trunc(width / slot)
    ensures m as real * slot <= width
  {
    var q := width / slot;
    assert q * slot == width;
    assert m as real <= q;
    MulMono(m as real, q, slot);
  }

  /** The drawn height of a stick swung by `offset`: with height animation the stick is
      its full height less one gap at rest and grows by the swing; without it the stick
      has its full height. */
  function RenderedHeight(c: Layout, allowHeightAnimation: bool, offset: real): (h: real)
    ensures !allowHeightAnimation ==> h == c.stickHeight
    ensures allowHeightAnimation && offset == 0.0 ==> h == c.stickHeight - c.spacing
    ensures allowHeightAnimation && (offset == c.spacing || offset == -c.spacing) && c.spacing >= 0.0 ==>
              h == c.stickHeight
  {
    if allowHeightAnimation then (if offset >= 0.0 then offset else -offset) + (c.stickHeight - c.spacing)
    else c.stickHeight
  }

  /** A stick at rest is at least 10 points high whenever the screen leaves room for the
      clamps (its height is then at least one gap plus 10). */
  lemma RestHeightPositive(requested: int, spacing: real, stickWidth: real, stickHeight: real,
                           duration: real, screenWidth: real, screenHeight: real,
                           allowHeightAnimation: bool)
    requires StickCount(requested, screenWidth, Max(stickWidth, 10.0), Max(spacing, 0.0)) >= 1
    requires Max(spacing, 0.0) + 10.0 <= screenHeight - 50.0
    ensures var c := LoaderLayout(requested, spacing, stickWidth, stickHeight, duration,
                                  screenWidth, screenHeight);
            RenderedHeight(c, allowHeightAnimation, 0.0) >= 10.0
  {
  }

  class Sequencer {
    const sticks: array<Stick>
    const layout: Layout
    const filledColor: Color
    const unfilledColor: Color
    const allowStickHeightAnimation: bool
    /** The stick the next tick animates, and its direction. */
    var index: int
    var reversing: bool

    ghost predicate Valid()
      reads this
    {
      sticks.Length == layout.stickCount >= 1 && 0 <= index < sticks.Length
    }

    /** Between ticks no stick is swung. */
    ghost predicate Settled()
      reads this, sticks
    {
      forall j :: 0 <= j < sticks.Length ==> sticks[j].offset == 0.0
    }

    function Pos(): Position
      reads this
    {
      Position(index, reversing)
    }

    constructor (requested: int, spacing: real, stickWidth: real, stickHeight: real,
                 filledColor: Color, unfilledColor: Color, duration: real,
                 allowStickHeightAnimation: bool, screenWidth: real, screenHeight: real)
      requires StickCount(requested, screenWidth, Max(stickWidth, 10.0), Max(spacing, 0.0)) >= 1
      ensures Valid() && Settled() && fresh(sticks)
      ensures layout == LoaderLayout(requested, spacing, stickWidth, stickHeight, duration,
                                     screenWidth, screenHeight)
      ensures this.filledColor == filledColor && this.unfilledColor == unfilledColor
      ensures this.allowStickHeightAnimation == allowStickHeightAnimation
      ensures forall j :: 0 <= j < sticks.Length ==> sticks[j] == Stick(0.0, unfilledColor)
      ensures Pos() == Position(0, false)
    {
      var c := LoaderLayout(requested, spacing, stickWidth, stickHeight, duration, screenWidth, screenHeight);
      layout := c;
      this.filledColor := filledColor;
      this.unfilledColor := unfilledColor;
      this.allowStickHeightAnimation := allowStickHeightAnimation;
      sticks := new Stick[c.stickCount](_ => Stick(0.0, unfilledColor));
      index, reversing := 0, false;
    }

    /** On appear: stick 0 is painted filled and the first tick is stick 0 going forward. */
    method Start()
      requires Valid()
      modifies this, sticks
      ensures Valid()
      ensures sticks[..] == old(sticks[..])[0 := old(sticks[0]).(color := filledColor)]
      ensures Pos() == Position(0, false)
    {
      sticks[0] := sticks[0].(color := filledColor);
      index, reversing := 0, false;
    }

    /** Swing the active stick by the spacing in the direction of travel and paint it
        by the sweep rule of `LinearLoading`. */
    method Update()
      requires Valid()
      modifies sticks
      ensures sticks[..] == old(sticks[..])[index := Stick(
                if reversing then -layout.spacing else layout.spacing,
                LinearLoading.ActiveColor(index, sticks.Length - 1, reversing, filledColor, unfilledColor))]
    {
      sticks[index] := Stick(
        if reversing then layout.spacing * -1.0 else layout.spacing,
        LinearLoading.ActiveColor(index, sticks.Length - 1, reversing, filledColor, unfilledColor));
    }

    /** Swing the active stick back (its colour stays) and move to the next position of
        the bounce sweep that turns at stick 0 and at the last stick. */
    method Reset()
      requires Valid()
      modifies this, sticks
      ensures Valid()
      ensures sticks[..] == old(sticks[..])[old(index) := old(sticks[index]).(offset := 0.0)]
      ensures Pos() == BounceNext(old(Pos()), 0, sticks.Length - 1)
    {
      sticks[index] := sticks[index].(offset := 0.0);
      var next := BounceNext(Pos(), 0, sticks.Length - 1);
      index, reversing := next.index, next.reversing;
    }

    /** One timer tick: only the active stick changes; it ends at rest with its sweep
        colour. */
    method Tick()
      requires Valid()
      modifies this, sticks
      ensures Valid()
      ensures sticks[..] == old(sticks[..])[old(index) := Stick(0.0,
                LinearLoading.ActiveColor(old(index), sticks.Length - 1, old(reversing), filledColor, unfilledColor))]
      ensures Pos() == BounceNext(old(Pos()), 0, sticks.Length - 1)
      ensures old(Settled()) ==> Settled()
    {
      Update();
      Reset();
    }
  }
}
