/** The style and arrow parameters of the download progress animation
    (`SSProgressViewStyle` and `ArrowViewParams`). The style initialiser raises the
    circle size and both stroke widths to a floor and stores everything else as given;
    the arrow parameters copy six of their eight arguments. */
module ProgressViewStyle {
  import opened Numeric
  import opened Colors

  /** The toolkit's font weights. */
  datatype FontWeight = UltraLight | Thin | Light | Regular | Medium | Semibold | Bold | Heavy | Black

  datatype Style = Style(
    circleSize: real,
    circleStrokeWidth: real,
    arrowStrokeWidth: real,
    fontSize: real,
    fontWeight: FontWeight,
    progressTextColor: Color,
    emptyStrokeColor: Color,
    fillStrokeColor: Color,
    arrowColor: Color,
    allowCancelProgress: bool)

  /** The style initialiser. The font size is not clamped. */
  function Make(circleSize: real, circleStrokeWidth: real, arrowStrokeWidth: real,
                fontSize: real, fontWeight: FontWeight, progressTextColor: Color,
                emptyStrokeColor: Color, fillStrokeColor: Color, arrowColor: Color,
                allowCancelProgress: bool): (s: Style)
    ensures s.circleSize >= 100.0 && (circleSize >= 100.0 ==> s.circleSize == circleSize)
    ensures s.circleStrokeWidth >= 1.0 && (circleStrokeWidth >= 1.0 ==> s.circleStrokeWidth == circleStrokeWidth)
    ensures s.arrowStrokeWidth >= 1.0 && (arrowStrokeWidth >= 1.0 ==> s.arrowStrokeWidth == arrowStrokeWidth)
    ensures circleSize < 100.0 ==> s.circleSize == 100.0
    ensures circleStrokeWidth < 1.0 ==> s.circleStrokeWidth == 1.0
    ensures arrowStrokeWidth < 1.0 ==> s.arrowStrokeWidth == 1.0
    ensures s.fontSize == fontSize && s.fontWeight == fontWeight
    ensures s.progressTextColor == progressTextColor && s.emptyStrokeColor == emptyStrokeColor
    ensures s.fillStrokeColor == fillStrokeColor && s.arrowColor == arrowColor
    ensures s.allowCancelProgress == allowCancelProgress
  {
    Style(Max(circleSize, 100.0), Max(circleStrokeWidth, 1.0), Max(arrowStrokeWidth, 1.0),
          fontSize, fontWeight, progressTextColor, emptyStrokeColor, fillStrokeColor,
          arrowColor, allowCancelProgress)
  }

  const Blue: Color := Color("blue", 1.0)

  /** The style initialiser with every argument left at its default. */
  function Default(): (s: Style)
    ensures s == Make(200.0, 5.0, 5.0, 15.0, Regular, Blue, Color("blue", 0.2), Blue, Blue, false)
    ensures s.circleSize == 200.0 && s.circleStrokeWidth == 5.0 && s.arrowStrokeWidth == 5.0
    ensures s.fontSize == 15.0 && !s.allowCancelProgress
  {
    Style(200.0, 5.0, 5.0, 15.0, Regular, Blue, Color("blue", 0.2), Blue, Blue, false)
  }

  datatype ArrowViewParams = ArrowViewParams(
    isAnimating: bool,
    initialAnim: real,
    isDownward: bool,
    animationStarted: bool,
    showVerticalLine: bool,
    showPercent: bool)

  /** The arrow parameters initialiser: `progress` and `doneAnimating` are accepted and
      dropped. */
  function MakeArrowViewParams(isAnimating: bool, progress: real, doneAnimating: bool,
                               initialAnim: real, isDownward: bool, animationStarted: bool,
                               showVerticalLine: bool, showPercent: bool): (a: ArrowViewParams)
    ensures a.isAnimating == isAnimating && a.initialAnim == initialAnim
    ensures a.isDownward == isDownward && a.animationStarted == animationStarted
    ensures a.showVerticalLine == showVerticalLine && a.showPercent == showPercent
  {
    ArrowViewParams(isAnimating, initialAnim, isDownward, animationStarted, showVerticalLine, showPercent)
  }

  /** The arrow parameters do not depend on `progress` or `doneAnimating`. */
  lemma ArrowViewParamsIgnoreProgress(isAnimating: bool, p1: real, p2: real, d1: bool, d2: bool,
                                      initialAnim: real, isDownward: bool, animationStarted: bool,
                                      showVerticalLine: bool, showPercent: bool)
    ensures MakeArrowViewParams(isAnimating, p1, d1, initialAnim, isDownward, animationStarted,
                                showVerticalLine, showPercent) ==
            MakeArrowViewParams(isAnimating, p2, d2, initialAnim, isDownward, animationStarted,
                                showVerticalLine, showPercent)
  {
  }

  /** Building a style again from its own fields changes nothing. */
  lemma MakeIdempotent(circleSize: real, circleStrokeWidth: real, arrowStrokeWidth: real,
                       fontSize: real, fontWeight: FontWeight, progressTextColor: Color,
                       emptyStrokeColor: Color, fillStrokeColor: Color, arrowColor: Color,
                       allowCancelProgress: bool)
    ensures var s := Make(circleSize, circleStrokeWidth, arrowStrokeWidth, fontSize, fontWeight,
                          progressTextColor, emptyStrokeColor, fillStrokeColor, arrowColor,
                          allowCancelProgress);
            Make(s.circleSize, s.circleStrokeWidth, s.arrowStrokeWidth, s.fontSize, s.fontWeight,
                 s.progressTextColor, s.emptyStrokeColor, s.fillStrokeColor, s.arrowColor,
                 s.allowCancelProgress) == s
  {
  }
}
