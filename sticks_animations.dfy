/** What the sticks animations share: the stick record, the sizing of the linear and
    of the ring-shaped sequencers, and the loop that paints a prefix of the sticks. */
module SticksAnimations {
  import opened Numeric
  import opened Colors

  /** One dash of a sequencer: its swing offset (`xAxis` in the source: points for the
      linear bars, a fraction of a slot for the rings), its height and its colour. */
  datatype Stick = Stick(offset: real, height: real, color: Color)

  /** Sizing of `LinearLoading` and `LinearProgress`, fixed at construction. */
  datatype LinearConfig = LinearConfig(
    stickCount: int,
    initialHeight: real,
    stickWidth: real,
    stickHeight: real,
    spacing: real,
    perStickDuration: real)

  /** The stick count and sizes of a linear bar of the given size. The count is taken
      from the requested (unclamped) width and spacing; the stored width and spacing
      are clamped afterwards. */
  function LinearLayout(width: real, height: real, stickWidth: real, spacing: real,
                        duration: real, allowHeightAnimation: bool): (c: LinearConfig)
    requires stickWidth + spacing != 0.0
    ensures c.stickCount >= 3
    ensures c.stickCount == 3 || c.stickCount == Trunc(width / (stickWidth + spacing))
    ensures Trunc(width / (stickWidth + spacing)) <= c.stickCount
    ensures c.stickWidth >= 5.0 && (stickWidth >= 5.0 ==> c.stickWidth == stickWidth)
    ensures stickWidth < 5.0 ==> c.stickWidth == 5.0
    ensures 0.0 <= c.spacing && (c.spacing == 0.0 || c.spacing <= stickWidth)
    ensures 0.0 <= spacing <= stickWidth ==> c.spacing == spacing
    ensures spacing < 0.0 || stickWidth < 0.0 ==> c.spacing == 0.0
    ensures 0.0 <= stickWidth < spacing ==> c.spacing == stickWidth
    ensures c.stickHeight == height
    ensures c.initialHeight == if allowHeightAnimation then 0.8 * height else height
    // a full forward-and-back cycle of 2 * count steps lasts max(duration, 0.2)
    ensures c.perStickDuration > 0.0
    ensures c.perStickDuration * (2 * c.stickCount) as real == Max(duration, 0.2)
  {
    var count := IntMax(Trunc(width / (stickWidth + spacing)), 3);
    LinearConfig(
      count,
      if allowHeightAnimation then height * 0.80 else height,
      Max(stickWidth, 5.0),
      height,
      Max(Min(spacing, stickWidth), 0.0),
      Max(duration, 0.2) / (count * 2) as real)
  }

  /** When the width holds at least three slots of one stick and one gap, the count is
      the number of whole slots that fit in it. */
  lemma LinearStickCountFits(width: real, height: real, stickWidth: real, spacing: real,
                             duration: real, allowHeightAnimation: bool)
    requires stickWidth + spacing > 0.0
    requires width >= 3.0 * (stickWidth + spacing)
    ensures var n := LinearLayout(width, height, stickWidth, spacing, duration, allowHeightAnimation).stickCount;
            n as real * (stickWidth + spacing) <= width < (n + 1) as real * (stickWidth + spacing)
  {
    var slot := stickWidth + spacing;
    WholeSlots(width, slot);
  }

  // n = Int(width / slot) satisfies n * slot <= width < (n + 1) * slot, and n >= 3 here.
  lemma WholeSlots(width: real, slot: real)
    requires slot > 0.0 && width >= 3.0 * slot
    ensures 3 <= Trunc(width / slot)
    ensures Trunc(width / slot) as real * slot <= width < (Trunc(width / slot) + 1) as real * slot
  {
    var q := width / slot;
    assert q * slot == width;
    assert 3.0 <= q by {
      if q < 3.0 {
        MulStrict(q, 3.0, slot);
      }
    }
    var n := Trunc(q);
    assert n as real <= q < n as real + 1.0 == (n + 1) as real;
    MulMono(n as real, q, slot);
    MulStrict(q, (n + 1) as real, slot);
    assert width == q * slot < (n + 1) as real * slot;
    assert n == Trunc(width / slot);
    assert width < (Trunc(width / slot) + 1) as real * slot;
  }

  /** Sizing of the three ring-shaped sequencers, fixed at construction. */
  datatype RingConfig = RingConfig(
    stickCount: int,
    circleSize: real,
    stickWidth: real,
    stickHeight: real,
    perStickDuration: real)

  /** The stick count and sizes of a ring drawn in the given box: the ring takes the
      smaller side, a stick is 5% of it wide and 20% of it high, and the count is the
      ring size over three quarters of a stick width. */
  function RingLayout(width: real, height: real, duration: real): (c: RingConfig)
    requires Min(width, height) != 0.0
    ensures c.stickCount == 26
    ensures c.circleSize == Min(width, height)
    ensures c.stickWidth == c.circleSize / 20.0 && c.stickHeight == c.circleSize / 5.0
    // one lap of the ring lasts `duration`
    ensures c.perStickDuration * c.stickCount as real == duration
  {
    var size := Min(width, height);
    var stickWidth := size * 0.05;
    RingStickCount(size);
    var count := Trunc(size / (stickWidth * 0.75));
    RingConfig(count, size, stickWidth, size * 0.20, duration / count as real)
  }

  // size / (size * 0.05 * 0.75) is 80/3 whatever the size, so the count is 26.
  lemma RingStickCount(size: real)
    requires size != 0.0
    ensures Trunc(size / (size * 0.05 * 0.75)) == 26
  {
    var q := size / (size * 0.05 * 0.75);
    assert q * (size * 0.0375) == size;
    assert q == 80.0 / 3.0;
  }

  /** `s` with sticks `0..k-1` repainted `c`. */
  function PaintedPrefix(s: seq<Stick>, k: int, c: Color): seq<Stick>
    requires 0 <= k <= |s|
  {
    seq(|s|, j requires 0 <= j < |s| => if j < k then s[j].(color := c) else s[j])
  }

  /** The fill loop of the progress bars: repaint sticks `0..k-1`. */
  method PaintPrefix(a: array<Stick>, k: int, c: Color)
    requires 0 <= k <= a.Length
    modifies a
    ensures a[..] == PaintedPrefix(old(a[..]), k, c)
  {
    for i := 0 to k
      invariant a[..] == PaintedPrefix(old(a[..]), i, c)
    {
      a[i] := a[i].(color := c);
    }
  }
}
