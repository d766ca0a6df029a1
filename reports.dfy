/**
 * What the tutorial's `println` calls would show. A report is kept as a sequence of pieces: literal
 * text, and the numbers that Kotlin's string templates interpolate. How a number is rendered as
 * characters (`20.0`, `-5`) is left abstract.
 */
module Reports {
  datatype Piece = Text(text: string) | Real(r: real) | Int(i: int)

  type Report = seq<Piece>
}
