/** `CircularStickLoader`: a ring of sticks sized from the screen, which a lap colour
    runs round forever.

    The lap logic is that of `CircularLoading` (the lap colour swaps after the last
    stick); the sizing differs: the ring size is clamped to the screen, the stick width
    to a band of 9% to 20% of the size, and the count comes from how many stick widths
    fit round the circle. Its sticks are the two-field records of `LinearStickLoader`. */
module CircularStickLoader {
  import opened Numeric
  import opened Colors
  import opened Sweep
  import LinearStickLoader

  /** The value of `Float.pi`. */
  const Pi: real := 3.1415927

  /** The swing of the active stick, as a fraction of one slot of the ring. */
  const Swing: real := 0.6

  /** Sizing of the loader, fixed at construction. */
  datatype RingLayout = RingLayout(
    stickCount: int,
    circleRadius: real,
    stickWidth: real,
    perStickDuration: real)

  /** The ring size: at least 50, but 50 short of the smaller screen side; the cap wins
      when the two conflict. */
  function RingSize(size: real, screenWidth: real, screenHeight: real): (s: real)
    ensures s <= Min(screenWidth, screenHeight) - 50.0
    ensures 50.0 <= Min(screenWidth, screenHeight) - 100.0 ==> 50.0 <= s
    ensures s == size || s == 50.0 || s == Min(screenWidth, screenHeight) - 50.0
    ensures 50.0 <= size <= Min(screenWidth, screenHeight) - 50.0 ==> s == size
    ensures size < 50.0 <= Min(screenWidth, screenHeight) - 50.0 ==> s == 50.0
    ensures Min(screenWidth, screenHeight) - 50.0 < Max(size, 50.0) ==>
              s == Min(screenWidth, screenHeight) - 50.0
  {
    Min(Max(size, 50.0), Min(screenWidth, screenHeight) - 50.0)
  }

  /** The stick width: the requested width, kept within 9% to 20% of the ring size. */
  function RingStickWidth(ringSize: real, stickWidth: real): (w: real)
    requires ringSize > 0.0
    ensures ringSize / 100.0 * 9.0 <= w <= ringSize / 100.0 * 20.0
    ensures ringSize / 100.0 * 9.0 <= stickWidth <= ringSize / 100.0 * 20.0 ==> w == stickWidth
    ensures stickWidth < ringSize / 100.0 * 9.0 ==> w == ringSize / 100.0 * 9.0
    ensures stickWidth > ringSize / 100.0 * 20.0 ==> w == ringSize / 100.0 * 20.0
  {
    Min(Max(ringSize / 100.0 * 9.0, stickWidth), ringSize / 100.0 * 20.0)
  }

  /** The clamped sizes and the count: a quarter of the circumference measured in stick
      widths. The ring size is positive only on a screen whose smaller side exceeds 50,
      which the layout requires. */
  function LoaderLayout(size: real, stickWidth: real, duration: real,
                        screenWidth: real, screenHeight: real): (c: RingLayout)
    requires Min(screenWidth, screenHeight) > 50.0
    ensures 7 <= c.stickCount <= 17
    ensures c.circleRadius * 2.0 == RingSize(size, screenWidth, screenHeight)
    ensures c.stickWidth == RingStickWidth(c.circleRadius * 2.0, stickWidth)
    // one lap of the ring lasts `duration`
    ensures c.perStickDuration * c.stickCount as real == duration
  {
    var adjustedSize := RingSize(size, screenWidth, screenHeight);
    var adjustedStickWidth := RingStickWidth(adjustedSize, stickWidth);
    var circumference := 2.0 * Pi * adjustedSize;
    var spacing := circumference / adjustedStickWidth;
    var count := Trunc(spacing * 25.0 / 100.0);
    CountBand(adjustedSize, adjustedStickWidth);
    RingLayout(count, adjustedSize / 2.0, adjustedStickWidth, duration / count as real)
  }

  /** With a stick width between 9% and 20% of the size, a quarter of the circumference
      holds between 7 and 17 whole stick widths. */
  lemma CountBand(size: real, width: real)
    requires size > 0.0 && size / 100.0 * 9.0 <= width <= size / 100.0 * 20.0
    ensures 7 <= Trunc(2.0 * Pi * size / width * 25.0 / 100.0) <= 17
  {
    var x := 2.0 * Pi * size / width;
    var lo, hi := size / 100.0 * 9.0, size / 100.0 * 20.0;
    var least, most := 10.0 * Pi, 200.0 / 9.0 * Pi;
    assert x * width == 2.0 * Pi * size;
    assert least <= x by {
      if x < least {
        MulStrict(x, least, width);
        MulMono(width, hi, least);
      }
    }
    assert x <= most by {
      if x > most {
        MulStrict(most, x, width);
        MulMono(lo, width, most);
      }
    }
    var q := x * 25.0 / 100.0;
    assert 7.0 <= q < 18.0;
  }

  class Sequencer {
    const sticks: array<LinearStickLoader.Stick>
    const layout: RingLayout
    const filledColor: Color
    const unfilledColor: Color
    /** The stick the next tick paints. */
    var index: int
    /** The colour the current lap paints (the colour passed along the chain). */
    var lapColor: Color

    ghost predicate Valid()
      reads this
    {
      sticks.Length == layout.stickCount && 7 <= sticks.Length <= 17 && 0 <= index < sticks.Length &&
      (lapColor == filledColor || lapColor == unfilledColor)
    }

    /** No stick is swung. */
    ghost predicate AtRest()
      reads this, sticks
    {
      forall j :: 0 <= j < sticks.Length ==> sticks[j].offset == 0.0
    }

    /** The first lap starts at stick 0 with the filled colour. */
    constructor (size: real, stickWidth: real, filledColor: Color, unfilledColor: Color,
                 duration: real, screenWidth: real, screenHeight: real)
      requires Min(screenWidth, screenHeight) > 50.0
      ensures Valid() && AtRest() && fresh(sticks)
      ensures layout == LoaderLayout(size, stickWidth, duration, screenWidth, screenHeight)
      ensures this.filledColor == filledColor && this.unfilledColor == unfilledColor
      ensures forall j :: 0 <= j < sticks.Length ==> sticks[j] == LinearStickLoader.Stick(0.0, unfilledColor)
      ensures index == 0 && lapColor == filledColor
    {
      var c := LoaderLayout(size, stickWidth, duration, screenWidth, screenHeight);
      layout := c;
      this.filledColor := filledColor;
      this.unfilledColor := unfilledColor;
      sticks := new LinearStickLoader.Stick[c.stickCount](_ => LinearStickLoader.Stick(0.0, unfilledColor));
      index := 0;
      lapColor := filledColor;
    }

    /** Swing the active stick and paint it the lap colour. */
    method Update()
      requires Valid()
      modifies sticks
      ensures sticks[..] == old(sticks[..])[index := LinearStickLoader.Stick(Swing, lapColor)]
    {
      sticks[index] := LinearStickLoader.Stick(Swing, lapColor);
    }

    /** Swing the active stick back and move on; after the last stick the next lap
        starts at stick 0 with the swapped colour. */
    method Reset()
      requires Valid()
      modifies this`index, this`lapColor, sticks
      ensures Valid()
      ensures sticks[..] == old(sticks[..])[old(index) := old(sticks[index]).(offset := 0.0)]
      ensures index == WrapNext(old(index), sticks.Length - 1)
      ensures lapColor == if old(index) == sticks.Length - 1
                          then SwapLapColor(old(lapColor), filledColor, unfilledColor)
                          else old(lapColor)
    {
      sticks[index] := sticks[index].(offset := 0.0);
      if index == sticks.Length - 1 {
        lapColor := SwapLapColor(lapColor, filledColor, unfilledColor);
        index := 0;
      } else {
        index := index + 1;
      }
    }

    /** One timer tick: the active stick ends at rest painted the lap colour, and
        nothing else changes on the ring. */
    method Tick()
      requires Valid()
      modifies this, sticks
      ensures Valid()
      ensures sticks[..] == old(sticks[..])[old(index) := LinearStickLoader.Stick(0.0, old(lapColor))]
      ensures index == WrapNext(old(index), sticks.Length - 1)
      ensures lapColor == if old(index) == sticks.Length - 1
                          then SwapLapColor(old(lapColor), filledColor, unfilledColor)
                          else old(lapColor)
      ensures old(AtRest()) ==> AtRest()
    {
      Update();
      Reset();
    }

    /** One lap: `count` ticks from stick 0 paint every stick the lap colour and leave
        it at rest, and the next lap starts at stick 0 with the other colour. */
    method RunLap()
      requires Valid() && index == 0
      modifies this, sticks
      ensures Valid() && index == 0
      ensures lapColor == SwapLapColor(old(lapColor), filledColor, unfilledColor)
      ensures forall j :: 0 <= j < sticks.Length ==> sticks[j] == LinearStickLoader.Stick(0.0, old(lapColor))
    {
      var n := sticks.Length;
      ghost var c0 := lapColor;
      for i := 0 to n
        invariant Valid()
        invariant index == (if i < n then i else 0)
        invariant lapColor == if i < n then c0 else SwapLapColor(c0, filledColor, unfilledColor)
        invariant forall j :: 0 <= j < n ==>
                    sticks[j] == if j < i then LinearStickLoader.Stick(0.0, c0) else old(sticks[j])
      {
        Tick();
      }
    }
  }
}
