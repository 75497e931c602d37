/** `CircularLoading`: a ring of sticks that a lap colour runs round forever.

    Each tick swings the active stick by 0.6 of a slot and paints it the lap colour,
    then swings it back and moves to the next stick; going from the last stick to
    stick 0 swaps the lap colour, so the ring is alternately painted filled and
    unfilled. */
module CircularLoading {
  import opened Numeric
  import opened Colors
  import opened Sweep
  import opened SticksAnimations

  /** The swing of the active stick, as a fraction of one slot of the ring. */
  const Swing: real := 0.6

  class Sequencer {
    const sticks: array<Stick>
    const config: RingConfig
    const filledColor: Color
    const unfilledColor: Color
    /** The stick the next tick paints. */
    var index: int
    /** The colour the current lap paints (the colour passed along the chain). */
    var lapColor: Color

    ghost predicate Valid()
      reads this
    {
      sticks.Length == config.stickCount == 26 && 0 <= index < sticks.Length &&
      (lapColor == filledColor || lapColor == unfilledColor)
    }

    /** No stick is swung, and every stick has the ring's stick height. */
    ghost predicate AtRest()
      reads this, sticks
    {
      forall j :: 0 <= j < sticks.Length ==>
        sticks[j].offset == 0.0 && sticks[j].height == config.stickHeight
    }

    /** The first lap starts at stick 0 with the filled colour. */
    constructor (width: real, height: real, filledColor: Color, unfilledColor: Color,
                 duration: real)
      requires Min(width, height) != 0.0
      ensures Valid() && AtRest() && fresh(sticks)
      ensures config == RingLayout(width, height, duration)
      ensures this.filledColor == filledColor && this.unfilledColor == unfilledColor
      ensures forall j :: 0 <= j < sticks.Length ==>
                sticks[j] == Stick(0.0, config.stickHeight, unfilledColor)
      ensures index == 0 && lapColor == filledColor
    {
      var c := RingLayout(width, height, duration);
      config := c;
      this.filledColor := filledColor;
      this.unfilledColor := unfilledColor;
      sticks := new Stick[c.stickCount](_ => Stick(0.0, c.stickHeight, unfilledColor));
      index := 0;
      lapColor := filledColor;
    }

    /** Swing the active stick and paint it the lap colour. */
    method Update()
      requires Valid()
      modifies sticks
      ensures sticks[..] == old(sticks[..])[index := old(sticks[index]).(offset := Swing, color := lapColor)]
    {
      sticks[index] := sticks[index].(offset := Swing, color := lapColor);
    }

    /** Swing the active stick back and move on; after the last stick the next lap
        starts at stick 0 with the swapped colour. */
    method Reset()
      requires Valid()
      modifies this`index, this`lapColor, sticks
      ensures Valid()
      ensures sticks[..] == old(sticks[..])[old(index) := old(sticks[index]).(offset := 0.0)]
      ensures index == WrapNext(old(index), sticks.Length - 1)
      ensures lapColor == if old(index) == sticks.Length - 1
                          then SwapLapColor(old(lapColor), filledColor, unfilledColor)
                          else old(lapColor)
    {
      sticks[index] := sticks[index].(offset := 0.0);
      if index == sticks.Length - 1 {
        lapColor := SwapLapColor(lapColor, filledColor, unfilledColor);
        index := 0;
      } else {
        index := index + 1;
      }
    }

    /** One timer tick: the active stick ends at rest painted the lap colour, and
        nothing else changes on the ring. */
    method Tick()
      requires Valid()
      modifies this, sticks
      ensures Valid()
      ensures sticks[..] == old(sticks[..])[old(index) := old(sticks[index]).(offset := 0.0, color := old(lapColor))]
      ensures index == WrapNext(old(index), sticks.Length - 1)
      ensures lapColor == if old(index) == sticks.Length - 1
                          then SwapLapColor(old(lapColor), filledColor, unfilledColor)
                          else old(lapColor)
      ensures old(AtRest()) ==> AtRest()
    {
      Update();
      Reset();
    }

    /** One lap: `count` ticks from stick 0 paint every stick the lap colour and leave
        it at rest, and the next lap starts at stick 0 with the other colour. */
    method RunLap()
      requires Valid() && index == 0
      modifies this, sticks
      ensures Valid() && index == 0
      ensures lapColor == SwapLapColor(old(lapColor), filledColor, unfilledColor)
      ensures filledColor != unfilledColor ==> lapColor != old(lapColor)
      ensures forall j :: 0 <= j < sticks.Length ==>
                sticks[j] == old(sticks[j]).(offset := 0.0, color := old(lapColor))
    {
      var n := sticks.Length;
      ghost var c0 := lapColor;
      for i := 0 to n
        invariant Valid()
        invariant index == (if i < n then i else 0)
        invariant lapColor == if i < n then c0 else SwapLapColor(c0, filledColor, unfilledColor)
        invariant forall j :: 0 <= j < n ==>
                    sticks[j] == if j < i then old(sticks[j]).(offset := 0.0, color := c0) else old(sticks[j])
      {
        Tick();
      }
    }
  }
}
