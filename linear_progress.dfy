/** `LinearProgress`: a row of sticks whose left part fills with the progress colour
    while a wave bounces between the fill boundary and the last stick.

    Each tick below 100% swings and paints the active stick, repaints the filled sticks
    before it with the progress colour, and moves the bookmark (`lastStickIndex`) to
    the fill boundary once the sweep has reached it; the reverse leg of the sweep turns
    at the bookmark. At 100% or more every stick takes the progress colour and the
    ticks stop. */
module LinearProgress {
  import opened Numeric
  import opened Colors
  import opened Sweep
  import opened Percentage
  import opened SticksAnimations

  /** The colour of the active stick: the last stick is unfilled, the bookmark stick
      filled (the last stick is checked first); any other stick is filled going forward
      and unfilled going back. */
  function ActiveColor(index: int, last: int, bookmark: int, reversing: bool,
                       filled: Color, unfilled: Color): Color
  {
    if index == last then unfilled
    else if index == bookmark then filled
    else if reversing then unfilled else filled
  }

  class Sequencer {
    const sticks: array<Stick>
    const config: LinearConfig
    const progressColor: Color
    const filledColor: Color
    const unfilledColor: Color
    const allowHeightAnimation: bool
    /** The stick the next tick animates, and its direction. */
    var index: int
    var reversing: bool
    /** Where the reverse leg turns: the fill boundary as last seen by the sweep. */
    var lastStickIndex: int
    /** False once a tick has seen 100% or more: no further tick is scheduled. */
    var running: bool

    ghost predicate Valid()
      reads this
    {
      sticks.Length == config.stickCount >= 3 && BookmarkOk(Sweep(), sticks.Length - 1)
    }

    /** Between ticks every stick is at rest: no offset, and either its initial
        height or the full stick height. */
    ghost predicate Settled()
      reads this, sticks
    {
      forall j :: 0 <= j < sticks.Length ==>
        sticks[j].offset == 0.0 &&
        (sticks[j].height == config.initialHeight || sticks[j].height == config.stickHeight)
    }

    function Pos(): Position
      reads this
    {
      Position(index, reversing)
    }

    function Sweep(): Bookmarked
      reads this
    {
      Bookmarked(Position(index, reversing), lastStickIndex)
    }

    /** The height of the stick being swung. */
    function SwingHeight(): real
    {
      if allowHeightAnimation then config.stickHeight * 1.25 else config.stickHeight
    }

    constructor (width: real, height: real, stickWidth: real, spacing: real,
                 progressColor: Color, filledColor: Color, unfilledColor: Color,
                 duration: real, allowHeightAnimation: bool)
      requires stickWidth + spacing != 0.0
      ensures Valid() && Settled() && fresh(sticks)
      ensures config == LinearLayout(width, height, stickWidth, spacing, duration, allowHeightAnimation)
      ensures this.progressColor == progressColor
      ensures this.filledColor == filledColor && this.unfilledColor == unfilledColor
      ensures this.allowHeightAnimation == allowHeightAnimation
      ensures forall j :: 0 <= j < sticks.Length ==>
                sticks[j] == Stick(0.0, config.initialHeight, unfilledColor)
      ensures Sweep() == Bookmarked(Position(0, false), 0) && running
    {
      var c := LinearLayout(width, height, stickWidth, spacing, duration, allowHeightAnimation);
      config := c;
      this.progressColor := progressColor;
      this.filledColor := filledColor;
      this.unfilledColor := unfilledColor;
      this.allowHeightAnimation := allowHeightAnimation;
      sticks := new Stick[c.stickCount](_ => Stick(0.0, c.initialHeight, unfilledColor));
      index, reversing := 0, false;
      lastStickIndex := 0;
      running := true;
    }

    /** On appear: stick 0 is painted filled and the first tick is stick 0 going forward. */
    method Start()
      requires Valid()
      modifies this, sticks
      ensures Valid()
      ensures sticks[..] == old(sticks[..])[0 := old(sticks[0]).(color := filledColor)]
      ensures Sweep() == Bookmarked(Position(0, false), old(lastStickIndex)) && running
    {
      sticks[0] := sticks[0].(color := filledColor);
      index, reversing := 0, false;
      running := true;
    }

    /** Swing and paint the active stick (its colour chosen with the bookmark as it was),
        repaint sticks `0..min(n, index)-1` with the progress colour, and move the
        bookmark to `n` when the active stick is at or past it. */
    method Update(p: real)
      requires Valid() && p < 100.0
      modifies this, sticks
      ensures Valid() && Pos() == old(Pos()) && running == old(running)
      ensures sticks[..] == PaintedPrefix(
                old(sticks[..])[index := Stick(
                  if reversing then -config.spacing else config.spacing,
                  SwingHeight(),
                  ActiveColor(index, sticks.Length - 1, old(lastStickIndex), reversing,
                              filledColor, unfilledColor))],
                IntMin(BarFill(sticks.Length, p), index), progressColor)
      ensures lastStickIndex ==
                if index >= BarFill(sticks.Length, p) then BarFill(sticks.Length, p)
                else old(lastStickIndex)
    {
      sticks[index] := Stick(
        if reversing then config.spacing * -1.0 else config.spacing,
        SwingHeight(),
        ActiveColor(index, sticks.Length - 1, lastStickIndex, reversing, filledColor, unfilledColor));
      var numberOfSticksToChange := FillCount(sticks.Length, p, 100.0);
      FillCountBelowFull(sticks.Length, p);
      PaintPrefix(sticks, IntMin(numberOfSticksToChange, index), progressColor);
      lastStickIndex := if index >= numberOfSticksToChange then numberOfSticksToChange else lastStickIndex;
    }

    /** Put the active stick back at rest (its colour stays) and move to the next
        position of the bounce sweep, whose reverse leg turns at the bookmark. */
    method Reset()
      requires Valid()
      modifies this`index, this`reversing, sticks
      ensures Valid()
      ensures sticks[..] == old(sticks[..])[old(index) :=
                old(sticks[index]).(offset := 0.0, height := config.stickHeight)]
      ensures Pos() == BounceNext(old(Pos()), lastStickIndex, sticks.Length - 1)
    {
      sticks[index] := sticks[index].(offset := 0.0, height := config.stickHeight);
      var next := BounceNext(Pos(), lastStickIndex, sticks.Length - 1);
      index, reversing := next.index, next.reversing;
    }

    /** One timer tick with the current percentage `p`. Below 100% the sweep takes one
        step of the progress sweep, the active stick ends at rest with the full height
        and its sweep colour, and the filled prefix takes the progress colour. At 100%
        or more every stick takes the progress colour and the ticks stop. */
    method Tick(p: real)
      requires Valid() && running
      modifies this, sticks
      ensures Valid()
      ensures p >= 100.0 ==>
                (!running && Sweep() == old(Sweep()) &&
                 sticks[..] == PaintedPrefix(old(sticks[..]), sticks.Length, progressColor))
      ensures p < 100.0 ==>
                (running && Sweep() == FillStep(old(Sweep()), BarFill(sticks.Length, p), sticks.Length - 1) &&
                 sticks[..] == PaintedPrefix(
                   old(sticks[..])[old(index) := Stick(0.0, config.stickHeight,
                     ActiveColor(old(index), sticks.Length - 1, old(lastStickIndex), old(reversing),
                                 filledColor, unfilledColor))],
                   IntMin(BarFill(sticks.Length, p), old(index)), progressColor))
      ensures old(Settled()) ==> Settled()
    {
      if p < 100.0 {
        FillCountBelowFull(sticks.Length, p);
        Update(p);
        Reset();
      } else {
        PaintPrefix(sticks, sticks.Length, progressColor);
        running := false;
      }
    }

    /** A change of the bound percentage: the sweep restarts at stick 0 going forward
        only when the previous value was exactly 100, so a chain halted at another value
        restarts only after the value has passed through exactly 100. */
    method PercentageChanged(oldValue: real)
      requires Valid()
      modifies this
      ensures Valid() && lastStickIndex == old(lastStickIndex)
      ensures oldValue == 100.0 ==> Pos() == Position(0, false) && running
      ensures oldValue != 100.0 ==> Pos() == old(Pos()) && running == old(running)
    {
      if oldValue == 100.0 {
        index, reversing := 0, false;
        running := true;
      }
    }

    /** `k` ticks at a constant percentage below 100. The sweep takes `k` steps of the
        progress sweep; when it starts at or past the fill boundary, it stays there and,
        after at least one tick, every stick before the boundary shows the progress
        colour. */
    method RunTicks(p: real, k: nat)
      requires Valid() && running && p < 100.0
      modifies this, sticks
      ensures Valid() && running
      ensures Sweep() == FillSteps(old(Sweep()), BarFill(sticks.Length, p), sticks.Length - 1, k)
      ensures old(BarFill(sticks.Length, p) <= index) ==>
                BarFill(sticks.Length, p) <= index &&
                (k > 0 ==> forall j :: 0 <= j < BarFill(sticks.Length, p) ==> sticks[j].color == progressColor)
    {
      var n := BarFill(sticks.Length, p);
      FillCountBelowFull(sticks.Length, p);
      ghost var s0 := Sweep();
      for i := 0 to k
        invariant Valid() && running
        invariant Sweep() == FillSteps(s0, n, sticks.Length - 1, i)
        invariant n <= s0.pos.index ==>
                    n <= index && (i > 0 ==> forall j :: 0 <= j < n ==> sticks[j].color == progressColor)
      {
        FillStepsAdd(s0, n, sticks.Length - 1, i, 1);
        Tick(p);
      }
    }
  }
}
