/** `LRArrowAnimStyle`: the style of the left-right arrow animation. Its initialiser
    raises the arrow and circle sizes to a floor, keeps both stroke sizes between 1 and
    a fraction of the requested circle size, and stores the colours as given. */
module LRArrowAnimStyle {
  import opened Numeric
  import opened Colors

  datatype Style = Style(
    arrowSize: real,
    circleSize: real,
    strokeEmptyColor: Color,
    strokeFillColor: Color,
    arrowColor: Color,
    circleStrokeSize: real,
    arrowStrokeSize: real)

  /** The initialiser. The stroke caps use the circle size as requested, before its own
      floor of 50 is applied. */
  function Make(arrowSize: real, circleSize: real, strokeEmptyColor: Color,
                strokeFillColor: Color, arrowColor: Color, circleStrokeSize: real,
                arrowStrokeSize: real): (s: Style)
    ensures s.arrowSize >= 10.0 && (arrowSize >= 10.0 ==> s.arrowSize == arrowSize)
    ensures arrowSize < 10.0 ==> s.arrowSize == 10.0
    ensures s.circleSize >= 50.0 && (circleSize >= 50.0 ==> s.circleSize == circleSize)
    ensures circleSize < 50.0 ==> s.circleSize == 50.0
    ensures s.circleStrokeSize >= 1.0
    ensures circleSize / 1.2 >= 1.0 ==> s.circleStrokeSize <= circleSize / 1.2
    ensures 1.0 <= circleStrokeSize <= circleSize / 1.2 ==> s.circleStrokeSize == circleStrokeSize
    ensures 1.0 <= circleSize / 1.2 < circleStrokeSize ==> s.circleStrokeSize == circleSize / 1.2
    ensures Min(circleStrokeSize, circleSize / 1.2) < 1.0 ==> s.circleStrokeSize == 1.0
    ensures s.arrowStrokeSize >= 1.0
    ensures circleSize / 5.0 >= 1.0 ==> s.arrowStrokeSize <= circleSize / 5.0
    ensures 1.0 <= arrowStrokeSize <= circleSize / 5.0 ==> s.arrowStrokeSize == arrowStrokeSize
    ensures 1.0 <= circleSize / 5.0 < arrowStrokeSize ==> s.arrowStrokeSize == circleSize / 5.0
    ensures Min(arrowStrokeSize, circleSize / 5.0) < 1.0 ==> s.arrowStrokeSize == 1.0
    ensures s.strokeEmptyColor == strokeEmptyColor && s.strokeFillColor == strokeFillColor
    ensures s.arrowColor == arrowColor
  {
    Style(
      Max(arrowSize, 10.0),
      Max(circleSize, 50.0),
      strokeEmptyColor,
      strokeFillColor,
      arrowColor,
      Max(Min(circleStrokeSize, circleSize / 1.2), 1.0),
      Max(Min(arrowStrokeSize, circleSize / 5.0), 1.0))
  }

  const Brown: Color := Color("brown", 1.0)

  /** The initialiser with every argument left at its default. */
  function Default(): (s: Style)
    ensures s == Make(20.0, 80.0, Brown, Brown, Brown, 1.0, 1.0)
    ensures s.arrowSize == 20.0 && s.circleSize == 80.0
    ensures s.circleStrokeSize == 1.0 && s.arrowStrokeSize == 1.0
  {
    Style(20.0, 80.0, Brown, Brown, Brown, 1.0, 1.0)
  }

  /** Every stored style is a fixed point of the initialiser: building a style again
      from its own fields changes nothing, although the stroke caps then use the
      clamped circle size. */
  lemma MakeIdempotent(arrowSize: real, circleSize: real, strokeEmptyColor: Color,
                       strokeFillColor: Color, arrowColor: Color, circleStrokeSize: real,
                       arrowStrokeSize: real)
    ensures var s := Make(arrowSize, circleSize, strokeEmptyColor, strokeFillColor, arrowColor,
                          circleStrokeSize, arrowStrokeSize);
            Make(s.arrowSize, s.circleSize, s.strokeEmptyColor, s.strokeFillColor, s.arrowColor,
                 s.circleStrokeSize, s.arrowStrokeSize) == s
  {
    var s := Make(arrowSize, circleSize, strokeEmptyColor, strokeFillColor, arrowColor,
                  circleStrokeSize, arrowStrokeSize);
    // both stroke sizes are at most max(raw / k, 1), and that is within the new caps
    assert s.circleStrokeSize <= Max(circleSize / 1.2, 1.0);
    assert Max(circleSize / 1.2, 1.0) <= s.circleSize / 1.2;
    assert s.arrowStrokeSize <= Max(circleSize / 5.0, 1.0);
    assert Max(circleSize / 5.0, 1.0) <= s.circleSize / 5.0;
  }
}
