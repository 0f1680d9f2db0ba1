/**
 * Drop shadows and compositing. A shadow is described by its geometry (the
 * padded bitmap and the filled rectangle before blurring); the canvas is the
 * ordered list of layers composited onto it. Pixels and blending are not
 * modelled: a paste is recorded as the layer and where it was placed.
 */
module Shadow {
  import opened Config

  /** Room left around the tile so that the blur is not clipped. */
  const Padding: int := ShadowRadius * 3

  /** Inset of the filled rectangle on each edge. */
  const Shrink: int := 2

  /** A rectangle by its corner coordinates, as drawn by the imaging library. */
  datatype Rect = Rect(x0: int, y0: int, x1: int, y1: int)

  datatype Rgba = Rgba(r: int, g: int, b: int, a: int)

  /** A shadow bitmap before blurring: its size, the filled rectangle, its colour and the blur radius. */
  datatype ShadowBitmap = ShadowBitmap(size: Size, fill: Rect, color: Rgba, blur: int)

  /**
   * The shadow for a tile of the given size: a transparent bitmap padded by
   * three blur radii on every side, holding a tile-sized rectangle shrunk by
   * two pixels per edge, in black at the shadow opacity, to be blurred.
   */
  function GenerateShadow(tile: Size): (sh: ShadowBitmap)
    ensures sh.size.w == tile.w + 6 * ShadowRadius && sh.size.h == tile.h + 6 * ShadowRadius
    ensures sh.fill.x0 == sh.size.w - sh.fill.x1 == Padding + Shrink
    ensures sh.fill.y0 == sh.size.h - sh.fill.y1 == Padding + Shrink
    ensures sh.fill.x1 - sh.fill.x0 == tile.w - 2 * Shrink
    ensures sh.fill.y1 - sh.fill.y0 == tile.h - 2 * Shrink
    ensures sh.color == Rgba(0, 0, 0, ShadowOpacity) && sh.blur == ShadowRadius
  {
    var w, h := tile.w, tile.h;
    ShadowBitmap(
      Size(w + Padding * 2, h + Padding * 2),
      Rect(Padding + Shrink, Padding + Shrink, Padding + w - Shrink, Padding + h - Shrink),
      Rgba(0, 0, 0, ShadowOpacity),
      ShadowRadius)
  }

  /** A layer composited onto the canvas: a shadow bitmap or a tile. */
  datatype Layer = ShadowLayer(bitmap: ShadowBitmap) | TileLayer(tile: Size)

  /** One alpha-composite onto the canvas, with the layer's top-left corner at (x, y). */
  datatype Composite = Composite(layer: Layer, x: int, y: int)

  /**
   * The two composites of one paste: the tile's shadow first, then the tile
   * at (x, y). The shadow's filled rectangle, in canvas coordinates, is the
   * tile's rectangle moved by the shadow offset and shrunk on each edge.
   */
  function PasteOps(tile: Size, x: int, y: int): (ops: seq<Composite>)
    ensures |ops| == 2
    ensures ops[0].layer == ShadowLayer(GenerateShadow(tile))
    ensures ops[1] == Composite(TileLayer(tile), x, y)
    ensures ops[0].x == x - 37 && ops[0].y == y - 37
    ensures var fill := ops[0].layer.bitmap.fill;
            && ops[0].x + fill.x0 == x + ShadowOffsetX + Shrink
            && ops[0].y + fill.y0 == y + ShadowOffsetY + Shrink
            && ops[0].x + fill.x1 == x + tile.w + ShadowOffsetX - Shrink
            && ops[0].y + fill.y1 == y + tile.h + ShadowOffsetY - Shrink
  {
    [Composite(ShadowLayer(GenerateShadow(tile)), x - Padding + ShadowOffsetX, y - Padding + ShadowOffsetY),
     Composite(TileLayer(tile), x, y)]
  }

  /** The 1200 x 1600 canvas and the composites applied to it so far, in order. */
  class Canvas {
    const width: int
    const height: int
    var composites: seq<Composite>

    /** A fresh, fully transparent canvas. */
    constructor ()
      ensures width == CanvasW && height == CanvasH
      ensures composites == []
    {
      width := CanvasW;
      height := CanvasH;
      composites := [];
    }

    /** Composite the tile's shadow, then the tile at (x, y). */
    method PasteWithShadow(tile: Size, x: int, y: int)
      modifies this
      ensures composites == old(composites) + PasteOps(tile, x, y)
    {
      var shadow := GenerateShadow(tile);
      var shadowX := x - Padding + ShadowOffsetX;
      var shadowY := y - Padding + ShadowOffsetY;
      composites := composites + [Composite(ShadowLayer(shadow), shadowX, shadowY)];
      composites := composites + [Composite(TileLayer(tile), x, y)];
    }
  }
}
