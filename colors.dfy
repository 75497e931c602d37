/** Colours of the toolkit, as values compared for equality only. */
module Colors {

  /** A named toolkit colour with its opacity (`Color.blue.opacity(0.2)` is `Color("blue", 0.2)`). */
  datatype Color = Color(name: string, opacity: real)

  /** The colour of the next lap of a circular loader: unfilled becomes filled,
      filled becomes unfilled, and any other colour becomes filled. The unfilled
      case is checked first, so when both colours are equal the result is that colour. */
  function SwapLapColor(color: Color, filled: Color, unfilled: Color): (next: Color)
    ensures next == filled || next == unfilled
    ensures filled != unfilled ==> next != color
    ensures color != unfilled && color != filled ==> next == filled
  {
    if color == unfilled then filled
    else if color == filled then unfilled
    else filled
  }

  /** Two laps bring back the lap colour, so the loader alternates between two colours. */
  lemma SwapLapColorTwice(color: Color, filled: Color, unfilled: Color)
    requires filled != unfilled
    requires color == filled || color == unfilled
    ensures SwapLapColor(SwapLapColor(color, filled, unfilled), filled, unfilled) == color
  {
  }

  /** Whatever colour a chain starts with, it is one of the two after the first swap. */
  lemma SwapLapColorSettles(color: Color, filled: Color, unfilled: Color)
    ensures var c := SwapLapColor(color, filled, unfilled);
            SwapLapColor(SwapLapColor(c, filled, unfilled), filled, unfilled) == c
  {
  }
}
