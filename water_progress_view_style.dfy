/** `SSWaterProgressViewStyle`: the style of the water progress animation. Its
    initialiser raises the circle size and the stroke width to a floor and stores every
    other field as given. */
module WaterProgressViewStyle {
  import opened Numeric
  import opened Colors
  import ProgressViewStyle

  /** A font of the toolkit's system family. */
  datatype Font = System(size: real, weight: ProgressViewStyle.FontWeight)

  datatype Style = Style(
    circleSize: real,
    circleStrokeWidth: real,
    progressFont: Font,
    progressTextColor: Color,
    emptyStrokeColor: Color,
    fillStrokeColor: Color,
    waterColor: Color,
    showBubbles: bool,
    bubbleColor: Color,
    checkMarkImg: string,
    checkMarkImgColor: Color)

  /** The initialiser. */
  function Make(circleSize: real, circleStrokeWidth: real, progressFont: Font,
                progressTextColor: Color, emptyStrokeColor: Color, fillStrokeColor: Color,
                waterColor: Color, showBubbles: bool, bubbleColor: Color,
                checkMarkImg: string, checkMarkImgColor: Color): (s: Style)
    ensures s.circleSize >= 100.0 && (circleSize >= 100.0 ==> s.circleSize == circleSize)
    ensures s.circleStrokeWidth >= 1.0 && (circleStrokeWidth >= 1.0 ==> s.circleStrokeWidth == circleStrokeWidth)
    ensures circleSize < 100.0 ==> s.circleSize == 100.0
    ensures circleStrokeWidth < 1.0 ==> s.circleStrokeWidth == 1.0
    ensures s.progressFont == progressFont && s.progressTextColor == progressTextColor
    ensures s.emptyStrokeColor == emptyStrokeColor && s.fillStrokeColor == fillStrokeColor
    ensures s.waterColor == waterColor && s.showBubbles == showBubbles && s.bubbleColor == bubbleColor
    ensures s.checkMarkImg == checkMarkImg && s.checkMarkImgColor == checkMarkImgColor
  {
    Style(Max(circleSize, 100.0), Max(circleStrokeWidth, 1.0), progressFont, progressTextColor,
          emptyStrokeColor, fillStrokeColor, waterColor, showBubbles, bubbleColor,
          checkMarkImg, checkMarkImgColor)
  }

  const White: Color := Color("white", 1.0)

  /** The initialiser with every argument left at its default. */
  function Default(): (s: Style)
    ensures s == Make(200.0, 5.0, System(16.0, ProgressViewStyle.Semibold), White, Color("gray", 0.3),
                      Color("orange", 1.0), Color("yellow", 1.0), true, White, "checkmark", White)
    ensures s.circleSize == 200.0 && s.circleStrokeWidth == 5.0 && s.showBubbles
  {
    Style(200.0, 5.0, System(16.0, ProgressViewStyle.Semibold), White, Color("gray", 0.3), Color("orange", 1.0),
          Color("yellow", 1.0), true, White, "checkmark", White)
  }

  /** Building a style again from its own fields changes nothing. */
  lemma MakeIdempotent(circleSize: real, circleStrokeWidth: real, progressFont: Font,
                       progressTextColor: Color, emptyStrokeColor: Color, fillStrokeColor: Color,
                       waterColor: Color, showBubbles: bool, bubbleColor: Color,
                       checkMarkImg: string, checkMarkImgColor: Color)
    ensures var s := Make(circleSize, circleStrokeWidth, progressFont, progressTextColor,
                          emptyStrokeColor, fillStrokeColor, waterColor, showBubbles, bubbleColor,
                          checkMarkImg, checkMarkImgColor);
            Make(s.circleSize, s.circleStrokeWidth, s.progressFont, s.progressTextColor,
                 s.emptyStrokeColor, s.fillStrokeColor, s.waterColor, s.showBubbles, s.bubbleColor,
                 s.checkMarkImg, s.checkMarkImgColor) == s
  {
  }
}
