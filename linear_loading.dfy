/** `LinearLoading`: a row of sticks that waves forward and back forever.

    Each tick swings the active stick by the spacing (forward: right, reverse: left),
    stretches it when height animation is on and paints it; then puts it back at rest
    and moves to the next index of a bounce sweep that turns at stick 0 and at the
    last stick. */
module LinearLoading {
  import opened Numeric
  import opened Colors
  import opened Sweep
  import opened SticksAnimations

  /** The colour of the active stick: stick 0 is always filled and the last stick always
      unfilled (stick 0 is checked first); any other stick is filled going forward and
      unfilled going back. */
  function ActiveColor(index: int, last: int, reversing: bool, filled: Color, unfilled: Color): Color
  {
    if index == 0 then filled
    else if index == last then unfilled
    else if reversing then unfilled else filled
  }

  /** The colour painted at tick `k` of a cycle started at stick 0 going forward: filled
      on the way out except at the last stick, unfilled on the way back except at stick 0. */
  lemma WaveColor(k: nat, last: nat, filled: Color, unfilled: Color)
    requires last >= 1
    requires k < 2 * (last + 1)
    ensures var pos := Bounce(k, last);
            ActiveColor(pos.index, last, pos.reversing, filled, unfilled) ==
              if k < last || k == 2 * last + 1 then filled else unfilled
  {
    BounceCycle(k, last);
  }

  class Sequencer {
    const sticks: array<Stick>
    const config: LinearConfig
    const filledColor: Color
    const unfilledColor: Color
    const allowHeightAnimation: bool
    /** The stick the next tick animates, and its direction. */
    var index: int
    var reversing: bool

    ghost predicate Valid()
      reads this
    {
      sticks.Length == config.stickCount >= 3 && 0 <= index < sticks.Length
    }

    /** Between ticks every stick is at rest: no offset, and either its initial
        height or the full stick height. */
    ghost predicate Settled()
      reads this, sticks
    {
      forall j :: 0 <= j < sticks.Length ==>
        sticks[j].offset == 0.0 &&
        (sticks[j].height == config.initialHeight || sticks[j].height == config.stickHeight)
    }

    function Pos(): Position
      reads this
    {
      Position(index, reversing)
    }

    /** The height of the stick being swung. */
    function SwingHeight(): real
    {
      if allowHeightAnimation then config.stickHeight * 1.25 else config.stickHeight
    }

    constructor (width: real, height: real, stickWidth: real, spacing: real,
                 filledColor: Color, unfilledColor: Color, duration: real,
                 allowHeightAnimation: bool)
      requires stickWidth + spacing != 0.0
      ensures Valid() && Settled() && fresh(sticks)
      ensures config == LinearLayout(width, height, stickWidth, spacing, duration, allowHeightAnimation)
      ensures this.filledColor == filledColor && this.unfilledColor == unfilledColor
      ensures this.allowHeightAnimation == allowHeightAnimation
      ensures forall j :: 0 <= j < sticks.Length ==>
                sticks[j] == Stick(0.0, config.initialHeight, unfilledColor)
      ensures Pos() == Position(0, false)
    {
      var c := LinearLayout(width, height, stickWidth, spacing, duration, allowHeightAnimation);
      config := c;
      this.filledColor := filledColor;
      this.unfilledColor := unfilledColor;
      this.allowHeightAnimation := allowHeightAnimation;
      sticks := new Stick[c.stickCount](_ => Stick(0.0, c.initialHeight, unfilledColor));
      index := 0;
      reversing := false;
    }

    /** On appear: stick 0 is painted filled and the first tick is stick 0 going forward. */
    method Start()
      requires Valid()
      modifies this, sticks
      ensures Valid()
      ensures sticks[..] == old(sticks[..])[0 := old(sticks[0]).(color := filledColor)]
      ensures Pos() == Position(0, false)
    {
      sticks[0] := sticks[0].(color := filledColor);
      index, reversing := 0, false;
    }

    /** Swing the active stick: offset by the spacing in the direction of travel,
        stretched height, colour by the sweep rule. No other stick changes. */
    method Update()
      requires Valid()
      modifies sticks
      ensures sticks[..] == old(sticks[..])[index := Stick(
                if reversing then -config.spacing else config.spacing,
                SwingHeight(),
                ActiveColor(index, sticks.Length - 1, reversing, filledColor, unfilledColor))]
    {
      sticks[index] := Stick(
        if reversing then config.spacing * -1.0 else config.spacing,
        SwingHeight(),
        ActiveColor(index, sticks.Length - 1, reversing, filledColor, unfilledColor));
    }

    /** Put the active stick back at rest (its colour stays) and move to the next
        position of the bounce sweep. */
    method Reset()
      requires Valid()
      modifies this, sticks
      ensures Valid()
      ensures sticks[..] == old(sticks[..])[old(index) :=
                old(sticks[index]).(offset := 0.0, height := config.stickHeight)]
      ensures Pos() == BounceNext(old(Pos()), 0, sticks.Length - 1)
    {
      sticks[index] := sticks[index].(offset := 0.0, height := config.stickHeight);
      var next := BounceNext(Pos(), 0, sticks.Length - 1);
      index, reversing := next.index, next.reversing;
    }

    /** One timer tick: update, then reset. Only the active stick changes; it ends at
        rest with the full height and the sweep colour. */
    method Tick()
      requires Valid()
      modifies this, sticks
      ensures Valid()
      ensures sticks[..] == old(sticks[..])[old(index) := Stick(0.0, config.stickHeight,
                ActiveColor(old(index), sticks.Length - 1, old(reversing), filledColor, unfilledColor))]
      ensures Pos() == BounceNext(old(Pos()), 0, sticks.Length - 1)
      ensures old(Settled()) ==> Settled()
    {
      Update();
      Reset();
    }

    /** The driver for one full cycle: 2 * count ticks from stick 0 going forward. The
        sweep is back where it started, every stick is at rest with the full height, and
        the wave has left stick 0 filled and every other stick unfilled. */
    method RunCycle()
      requires Valid() && Pos() == Position(0, false)
      modifies this, sticks
      ensures Valid() && Settled() && Pos() == Position(0, false)
      ensures forall j :: 0 <= j < sticks.Length ==>
                sticks[j] == Stick(0.0, config.stickHeight, if j == 0 then filledColor else unfilledColor)
    {
      var n := sticks.Length;
      for k := 0 to 2 * n
        invariant Valid()
        invariant Pos() == Bounce(k, n - 1)
        invariant forall j :: 0 <= j < n ==>
          sticks[j] ==
            if k <= n && j >= k then old(sticks[j])
            else Stick(0.0, config.stickHeight,
                       if k > n && j >= 2 * n - k then (if j == 0 then filledColor else unfilledColor)
                       else (if j == n - 1 then unfilledColor else filledColor))
      {
        BounceCycle(k, n - 1);
        Tick();
      }
      BounceCycle(2 * n, n - 1);
    }
  }
}
