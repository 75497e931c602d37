/** `CircularReverseProgressBar`: a ring of sticks that fills with the progress colour
    from stick 0 while a wave bounces between the fill boundary and the last stick.

    The sweep is the one of `LinearProgress` (the reverse leg turns at the bookmark
    `lastStickIndex`, which follows the fill boundary); the differences are the swing
    (a fixed 0.6 of a slot round the ring, no stretching) and the colour rule, which
    checks the bookmark before the last stick. */
module CircularReverseProgress {
  import opened Numeric
  import opened Colors
  import opened Sweep
  import opened Percentage
  import opened SticksAnimations
  import LinearProgress

  /** The colour of the active stick: the bookmark stick is filled, then the last stick
      unfilled (the bookmark is checked first); any other stick is filled going forward
      and unfilled going back. */
  function ActiveColor(index: int, last: int, bookmark: int, reversing: bool,
                       filled: Color, unfilled: Color): Color
  {
    if index == bookmark then filled
    else if index == last then unfilled
    else if reversing then unfilled else filled
  }

  /** The two progress colour rules differ only on the last stick when the bookmark is
      there too: this rule paints it filled, the rule of `LinearProgress` unfilled. */
  lemma ColorPrecedence(index: int, last: int, bookmark: int, reversing: bool,
                        filled: Color, unfilled: Color)
    requires filled != unfilled
    ensures ActiveColor(index, last, bookmark, reversing, filled, unfilled) !=
              LinearProgress.ActiveColor(index, last, bookmark, reversing, filled, unfilled)
            <==> index == bookmark == last
  {
  }

  /** The swing of the active stick, as a fraction of one slot of the ring. */
  const Swing: real := 0.6

  class Sequencer {
    const sticks: array<Stick>
    const config: RingConfig
    const progressColor: Color
    const filledColor: Color
    const unfilledColor: Color
    /** The stick the next tick animates, and its direction. */
    var index: int
    var reversing: bool
    /** Where the reverse leg turns: the fill boundary as last seen by the sweep. */
    var lastStickIndex: int
    /** False once a tick has seen 100% or more: no further tick is scheduled. */
    var running: bool

    ghost predicate Valid()
      reads this
    {
      sticks.Length == config.stickCount == 26 && BookmarkOk(Sweep(), sticks.Length - 1)
    }

    /** No stick is swung, and every stick has the ring's stick height. */
    ghost predicate AtRest()
      reads this, sticks
    {
      forall j :: 0 <= j < sticks.Length ==>
        sticks[j].offset == 0.0 && sticks[j].height == config.stickHeight
    }

    function Pos(): Position
      reads this
    {
      Position(index, reversing)
    }

    function Sweep(): Bookmarked
      reads this
    {
      Bookmarked(Position(index, reversing), lastStickIndex)
    }

    constructor (width: real, height: real, progressColor: Color, filledColor: Color,
                 unfilledColor: Color, duration: real)
      requires Min(width, height) != 0.0
      ensures Valid() && AtRest() && fresh(sticks)
      ensures config == RingLayout(width, height, duration)
      ensures this.progressColor == progressColor
      ensures this.filledColor == filledColor && this.unfilledColor == unfilledColor
      ensures forall j :: 0 <= j < sticks.Length ==>
                sticks[j] == Stick(0.0, config.stickHeight, unfilledColor)
      ensures Sweep() == Bookmarked(Position(0, false), 0) && running
    {
      var c := RingLayout(width, height, duration);
      config := c;
      this.progressColor := progressColor;
      this.filledColor := filledColor;
      this.unfilledColor := unfilledColor;
      sticks := new Stick[c.stickCount](_ => Stick(0.0, c.stickHeight, unfilledColor));
      index, reversing := 0, false;
      lastStickIndex := 0;
      running := true;
    }

    /** Swing and paint the active stick (its colour chosen with the bookmark as it was),
        repaint sticks `0..min(n, index)-1` with the progress colour, and move the
        bookmark to `n` when the active stick is at or past it. */
    method Update(p: real)
      requires Valid() && p < 100.0
      modifies this, sticks
      ensures Valid() && Pos() == old(Pos()) && running == old(running)
      ensures sticks[..] == PaintedPrefix(
                old(sticks[..])[index := old(sticks[index]).(
                  offset := if reversing then -Swing else Swing,
                  color := ActiveColor(index, sticks.Length - 1, old(lastStickIndex), reversing,
                                       filledColor, unfilledColor))],
                IntMin(BarFill(sticks.Length, p), index), progressColor)
      ensures lastStickIndex ==
                if index >= BarFill(sticks.Length, p) then BarFill(sticks.Length, p)
                else old(lastStickIndex)
    {
      sticks[index] := sticks[index].(offset := if reversing then -Swing else Swing);
      sticks[index] := sticks[index].(color :=
        ActiveColor(index, sticks.Length - 1, lastStickIndex, reversing, filledColor, unfilledColor));
      var numberOfSticksToChange := FillCount(sticks.Length, p, 100.0);
      FillCountBelowFull(sticks.Length, p);
      PaintPrefix(sticks, IntMin(numberOfSticksToChange, index), progressColor);
      lastStickIndex := if index >= numberOfSticksToChange then numberOfSticksToChange else lastStickIndex;
    }

    /** Swing the active stick back (its colour stays) and move to the next position of
        the bounce sweep, whose reverse leg turns at the bookmark. */
    method Reset()
      requires Valid()
      modifies this`index, this`reversing, sticks
      ensures Valid()
      ensures sticks[..] == old(sticks[..])[old(index) := old(sticks[index]).(offset := 0.0)]
      ensures Pos() == BounceNext(old(Pos()), lastStickIndex, sticks.Length - 1)
    {
      sticks[index] := sticks[index].(offset := 0.0);
      var next := BounceNext(Pos(), lastStickIndex, sticks.Length - 1);
      index, reversing := next.index, next.reversing;
    }

    /** One timer tick with the current percentage `p`: below 100% one step of the
        progress sweep, at 100% or more every stick takes the progress colour and the
        ticks stop. */
    method Tick(p: real)
      requires Valid() && running
      modifies this, sticks
      ensures Valid()
      ensures p >= 100.0 ==>
                (!running && Sweep() == old(Sweep()) &&
                 sticks[..] == PaintedPrefix(old(sticks[..]), sticks.Length, progressColor))
      ensures p < 100.0 ==>
                (running && Sweep() == FillStep(old(Sweep()), BarFill(sticks.Length, p), sticks.Length - 1) &&
                 sticks[..] == PaintedPrefix(
                   old(sticks[..])[old(index) := old(sticks[index]).(offset := 0.0, color :=
                     ActiveColor(old(index), sticks.Length - 1, old(lastStickIndex), old(reversing),
                                 filledColor, unfilledColor))],
                   IntMin(BarFill(sticks.Length, p), old(index)), progressColor))
      ensures old(AtRest()) ==> AtRest()
    {
      if p < 100.0 {
        FillCountBelowFull(sticks.Length, p);
        Update(p);
        Reset();
      } else {
        PaintPrefix(sticks, sticks.Length, progressColor);
        running := false;
      }
    }

    /** A change of the bound percentage: the sweep restarts at stick 0 going forward
        only when the previous value was exactly 100. */
    method PercentageChanged(oldValue: real)
      requires Valid()
      modifies this
      ensures Valid() && lastStickIndex == old(lastStickIndex)
      ensures oldValue == 100.0 ==> Pos() == Position(0, false) && running
      ensures oldValue != 100.0 ==> Pos() == old(Pos()) && running == old(running)
    {
      if oldValue == 100.0 {
        index, reversing := 0, false;
        running := true;
      }
    }

    /** `k` ticks at a constant percentage below 100: `k` steps of the progress sweep;
        from at or past the fill boundary the sweep stays there and, after at least one
        tick, every stick before the boundary shows the progress colour. */
    method RunTicks(p: real, k: nat)
      requires Valid() && running && p < 100.0
      modifies this, sticks
      ensures Valid() && running
      ensures Sweep() == FillSteps(old(Sweep()), BarFill(sticks.Length, p), sticks.Length - 1, k)
      ensures old(BarFill(sticks.Length, p) <= index) ==>
                BarFill(sticks.Length, p) <= index &&
                (k > 0 ==> forall j :: 0 <= j < BarFill(sticks.Length, p) ==> sticks[j].color == progressColor)
    {
      var n := BarFill(sticks.Length, p);
      FillCountBelowFull(sticks.Length, p);
      ghost var s0 := Sweep();
      for i := 0 to k
        invariant Valid() && running
        invariant Sweep() == FillSteps(s0, n, sticks.Length - 1, i)
        invariant n <= s0.pos.index ==>
                    n <= index && (i > 0 ==> forall j :: 0 <= j < n ==> sticks[j].color == progressColor)
      {
        FillStepsAdd(s0, n, sticks.Length - 1, i, 1);
        Tick(p);
      }
    }
  }
}
