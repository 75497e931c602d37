/** Where the next step of a stick sequencer goes.

    A bounce sweep walks the index up to the last stick and back down to a turning
    index (0 for the loaders, the fill bookmark for the progress bars). At either end
    the same index is replayed with the direction flipped. A wrap sweep walks up and
    goes from the last stick back to 0. */
module Sweep {

  /** The stick a step animates and the direction of travel. */
  datatype Position = Position(index: int, reversing: bool)

  /** The position after `pos`, for a bounce sweep over `0..last` whose reverse leg
      turns at `turn`. */
  function BounceNext(pos: Position, turn: int, last: int): (next: Position)
    requires 0 <= pos.index <= last && 0 <= turn <= last
    requires pos.reversing ==> turn <= pos.index
    ensures 0 <= next.index <= last
    ensures next.reversing ==> turn <= next.index
    // the index moves by one in the direction of travel, or is replayed with the direction flipped
    ensures next.index == pos.index <==> next.reversing != pos.reversing
    ensures next.reversing == pos.reversing ==>
              next.index == if pos.reversing then pos.index - 1 else pos.index + 1
    // the direction flips exactly at the two turning points
    ensures next.reversing != pos.reversing <==>
              (if pos.reversing then pos.index == turn else pos.index == last)
  {
    var nextIndex := if pos.reversing then pos.index - 1 else pos.index + 1;
    if (pos.index == turn && pos.reversing) || (pos.index == last && !pos.reversing) then
      Position(if pos.reversing then nextIndex + 1 else nextIndex - 1, !pos.reversing)
    else
      Position(nextIndex, pos.reversing)
  }

  /** The index after `index` in a wrap sweep over `0..last`. */
  function WrapNext(index: int, last: int): (next: int)
    requires 0 <= index <= last
    ensures 0 <= next <= last
    ensures next == (index + 1) % (last + 1)
  {
    if index == last then 0 else index + 1
  }

  /** The position of a bounce sweep that turns at 0, `k` steps after it starts at
      index 0 going forward. */
  function Bounce(k: nat, last: nat): (pos: Position)
    ensures 0 <= pos.index <= last
  {
    if k == 0 then Position(0, false) else BounceNext(Bounce(k - 1, last), 0, last)
  }

  /** One cycle of a bounce sweep over `n = last + 1` sticks: steps `0..n-1` go forward
      over indices `0..last`, steps `n..2n-1` go back over `last..0`, and step `2n`
      is index 0 going forward again. */
  lemma {:induction false} BounceCycle(k: nat, last: nat)
    requires k <= 2 * (last + 1)
    ensures Bounce(k, last) ==
              if k <= last then Position(k, false)
              else if k < 2 * (last + 1) then Position(2 * last + 1 - k, true)
              else Position(0, false)
  {
    if k > 0 {
      BounceCycle(k - 1, last);
    }
  }

  /** A bounce sweep over `n` sticks repeats itself every `2n` steps. */
  lemma {:induction false} BouncePeriodic(k: nat, last: nat)
    ensures Bounce(k + 2 * (last + 1), last) == Bounce(k, last)
  {
    if k == 0 {
      BounceCycle(2 * (last + 1), last);
    } else {
      BouncePeriodic(k - 1, last);
    }
  }

  /** A bounce sweep of a progress bar: its position, and the bookmark its reverse leg
      turns at (`lastStickIndex` in the source). */
  datatype Bookmarked = Bookmarked(pos: Position, bookmark: int)

  /** The sweep is on the bar, its bookmark too, and a reverse leg is never below the
      bookmark it turns at. */
  predicate BookmarkOk(s: Bookmarked, last: int)
  {
    0 <= s.pos.index <= last && 0 <= s.bookmark <= last &&
    (s.pos.reversing ==> s.bookmark <= s.pos.index)
  }

  /** One step of a progress sweep when `fill` sticks are filled: reaching or passing
      the fill boundary moves the bookmark there, and the position moves on by the
      bounce rule with the (new) bookmark as its reverse turning point. */
  function FillStep(s: Bookmarked, fill: int, last: int): (t: Bookmarked)
    requires 0 <= fill <= last && BookmarkOk(s, last)
    ensures BookmarkOk(t, last)
    ensures t.bookmark == fill || t.bookmark == s.bookmark
    ensures fill <= s.pos.index ==> t.bookmark == fill && fill <= t.pos.index
  {
    var b := if s.pos.index >= fill then fill else s.bookmark;
    Bookmarked(BounceNext(s.pos, b, last), b)
  }

  /** `k` steps of a progress sweep at a constant fill. */
  function FillSteps(s: Bookmarked, fill: int, last: int, k: nat): (t: Bookmarked)
    requires 0 <= fill <= last && BookmarkOk(s, last)
    ensures BookmarkOk(t, last)
    decreases k
  {
    if k == 0 then s else FillSteps(FillStep(s, fill, last), fill, last, k - 1)
  }

  lemma {:induction false} FillStepsAdd(s: Bookmarked, fill: int, last: int, a: nat, b: nat)
    requires 0 <= fill <= last && BookmarkOk(s, last)
    ensures FillSteps(s, fill, last, a + b) == FillSteps(FillSteps(s, fill, last, a), fill, last, b)
    decreases a
  {
    if a > 0 {
      FillStepsAdd(FillStep(s, fill, last), fill, last, a - 1, b);
    }
  }

  /** Going forward below the fill boundary, the sweep walks up to it one stick per step
      without touching the bookmark. */
  lemma {:induction false} FillStepsReach(i: int, b: int, fill: int, last: int)
    requires 0 <= i <= fill <= last && 0 <= b <= last
    ensures FillSteps(Bookmarked(Position(i, false), b), fill, last, fill - i) ==
              Bookmarked(Position(fill, false), b)
    decreases fill - i
  {
    if i < fill {
      assert FillStep(Bookmarked(Position(i, false), b), fill, last) == Bookmarked(Position(i + 1, false), b);
      FillStepsReach(i + 1, b, fill, last);
    }
  }

  /** Once at or past the fill boundary, the sweep never goes below it again, and after
      one more step its reverse leg turns exactly at the boundary. */
  lemma {:induction false} FillStepsStayAbove(s: Bookmarked, fill: int, last: int, k: nat)
    requires 0 <= fill <= last && BookmarkOk(s, last) && fill <= s.pos.index
    ensures fill <= FillSteps(s, fill, last, k).pos.index
    ensures k > 0 ==> FillSteps(s, fill, last, k).bookmark == fill
    decreases k
  {
    if k > 0 {
      FillStepsStayAbove(FillStep(s, fill, last), fill, last, k - 1);
    }
  }

  /** From stick 0 going forward (the start of a progress bar), whatever the bookmark:
      after `fill` steps the sweep is at the boundary, and from the step after on it
      stays within `fill..last` and turns back at `fill`. */
  lemma FillSweepSettles(b: int, fill: int, last: int, m: nat)
    requires 0 <= fill <= last && 0 <= b <= last
    ensures var t := FillSteps(Bookmarked(Position(0, false), b), fill, last, fill + m);
            fill <= t.pos.index && (m > 0 ==> t.bookmark == fill)
    ensures FillSteps(Bookmarked(Position(0, false), b), fill, last, fill).pos == Position(fill, false)
  {
    var s := Bookmarked(Position(0, false), b);
    FillStepsAdd(s, fill, last, fill, m);
    FillStepsReach(0, b, fill, last);
    FillStepsStayAbove(FillSteps(s, fill, last, fill), fill, last, m);
  }
}
