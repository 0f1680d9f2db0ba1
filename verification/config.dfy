/**
 * Fixed configuration of the poster engine: the canvas size, the drop-shadow
 * parameters, the two layout archetypes and the two styles, plus the integer
 * arithmetic that stands for the engine's float expressions.
 */
module Config {

  /** The canvas is always 1200 x 1600 pixels. */
  const CanvasW: int := 1200
  const CanvasH: int := 1600

  /** Drop-shadow parameters: blur radius, offset and alpha (out of 255). */
  const ShadowRadius: int := 15
  const ShadowOffsetX: int := 8
  const ShadowOffsetY: int := 8
  const ShadowOpacity: int := 80

  /** The smallest number of images a poster is made from. */
  const MinImages: int := 5

  datatype Option<T> = None | Some(value: T)

  /** Width and height of an image, in pixels. */
  datatype Size = Size(w: int, h: int)

  predicate Positive(s: Size) {
    s.w > 0 && s.h > 0
  }

  predicate AllPositive(images: seq<Size>) {
    forall i :: 0 <= i < |images| ==> Positive(images[i])
  }

  /**
   * TopGrid: a full-width hero tile above a two-column grid of the rest.
   * SymGrid: a two-column grid of every image.
   */
  datatype LayoutType = TopGrid | SymGrid

  datatype Mode = PosterMode | DenseMode

  /** A style; the vertical ratio is the exact fraction ratioNum / ratioDen. */
  datatype Style = Style(margin: int, ratioNum: int, ratioDen: int, mode: Mode)

  /** "poster": margin 50, vertical ratio 0.618. */
  const PosterStyle: Style := Style(50, 618, 1000, PosterMode)

  /** "dense": margin 25, vertical ratio 0.5. */
  const DenseStyle: Style := Style(25, 1, 2, DenseMode)

  /**
   * A style the engine can lay out with: a non-negative margin small enough
   * that two columns and three margins leave a positive column width, and a
   * vertical ratio in [0, 1].
   */
  predicate ValidMargin(margin: int) {
    0 <= margin && 3 * margin < CanvasW
  }

  predicate ValidStyle(s: Style) {
    ValidMargin(s.margin) && 0 < s.ratioDen && 0 <= s.ratioNum <= s.ratioDen
  }

  /** The images that form the two-column grid: all but the hero in TopGrid. */
  function GridPart<T>(xs: seq<T>, layout: LayoutType): (grid: seq<T>)
    requires layout == TopGrid ==> |xs| > 0
    ensures |grid| == |xs| - (if layout == TopGrid then 1 else 0)
    ensures layout == TopGrid ==> xs == [xs[0]] + grid
    ensures layout == SymGrid ==> grid == xs
  {
    if layout == TopGrid then xs[1..] else xs
  }

  function Abs(x: int): nat {
    if x < 0 then -x else x
  }

  function Max(a: int, b: int): int {
    if a < b then b else a
  }

  function Min(a: int, b: int): int {
    if a < b then a else b
  }

  /**
   * Python's int() applied to the exact quotient a / b (b > 0): the quotient
   * truncated toward zero. Dafny's / on a positive divisor rounds down, which
   * agrees for a >= 0 only.
   */
  function TruncDiv(a: int, b: int): (q: int)
    requires b > 0
    ensures Abs(q) * b <= Abs(a) < (Abs(q) + 1) * b
    ensures a >= 0 ==> q >= 0
    ensures a <= 0 ==> q <= 0
  {
    if a >= 0 then a / b else -((-a) / b)
  }
}
