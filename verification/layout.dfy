/**
 * The layout engine: scale every image to the common grid width (the hero
 * to the double-column width), recompute the real stack height, pick the
 * top offset, and paste the tiles top-down, row by row, left before right.
 */
module Layout {
  import opened Config
  import opened Scaling
  import opened Stack
  import opened Sizing
  import opened Shadow

  /** A tile placed on the canvas with its top-left corner at (x, y). */
  datatype Placement = Placement(tile: Size, x: int, y: int)

  /** The hero spans both columns and the margin between them. */
  function HeroWidth(gridW: int, margin: int): (w: int)
    ensures w == (RightX(gridW, margin) + gridW) - LeftX(gridW, margin) + margin % 2
  {
    gridW * 2 + margin
  }

  /** The hero is centred horizontally (rounding its left edge down). */
  function HeroX(hero: Size): (x: int)
    ensures 0 <= (CanvasW - (x + hero.w)) - x <= 1
  {
    (CanvasW - hero.w) / 2
  }

  /** Left edge of the left column: a half margin and one column left of the centre line. */
  function LeftX(gridW: int, margin: int): (x: int)
    ensures margin >= 0 ==> x + gridW <= CanvasW / 2
    ensures margin >= 0 && 2 * gridW + 3 * margin <= CanvasW ==> margin <= x
  {
    CanvasW / 2 - gridW - margin / 2
  }

  /**
   * Left edge of the right column: the left column mirrored about the
   * canvas centre line, leaving a gap of twice the half margin.
   */
  function RightX(gridW: int, margin: int): (x: int)
    ensures x + (LeftX(gridW, margin) + gridW) == CanvasW
    ensures x - (LeftX(gridW, margin) + gridW) == 2 * (margin / 2)
  {
    CanvasW / 2 + margin / 2
  }

  /**
   * The scaled images, in input order: in TopGrid the first to the hero
   * width, every grid image to the grid width. A zero target width is
   * falsy, so with a zero grid width the grid images keep their size.
   */
  function Processed(images: seq<Size>, gridW: int, margin: int, layout: LayoutType): (ps: seq<Size>)
    requires AllPositive(images)
    requires layout == TopGrid ==> |images| > 0
    ensures |ps| == |images|
    ensures layout == TopGrid && HeroWidth(gridW, margin) != 0 ==> ps[0].w == HeroWidth(gridW, margin)
    ensures layout == TopGrid && HeroWidth(gridW, margin) == 0 ==> ps[0] == images[0]
    ensures forall k :: (if layout == TopGrid then 1 else 0) <= k < |ps| ==>
              && (gridW != 0 ==> ps[k].w == gridW)
              && (gridW == 0 ==> ps[k] == images[k])
    ensures gridW >= 0 && margin >= 0 ==> forall k :: 0 <= k < |ps| ==> ps[k].h >= 0 && KeepsAspect(ps[k], images[k])
  {
    seq(|images|, k requires 0 <= k < |images| =>
      if layout == TopGrid && k == 0
      then ResizeKeepingAspect(images[0], Some(HeroWidth(gridW, margin)), None)
      else ResizeKeepingAspect(images[k], Some(gridW), None))
  }

  function HeightsOf(ps: seq<Size>): (hs: seq<int>) {
    seq(|ps|, k requires 0 <= k < |ps| => ps[k].h)
  }

  predicate NonNegHeights(ps: seq<Size>) {
    forall k :: 0 <= k < |ps| ==> ps[k].h >= 0
  }

  /** The real stack height of the scaled tiles: the hero and one margin, then the grid rows. */
  function StackHeight(ps: seq<Size>, margin: int, layout: LayoutType): (h: int)
    requires layout == TopGrid ==> |ps| > 0
    ensures margin >= 0 && NonNegHeights(ps) ==> forall k :: 0 <= k < |ps| ==> 0 <= ps[k].h <= h
  {
    var hero := if layout == TopGrid then 1 else 0;
    var hs := HeightsOf(GridPart(ps, layout));
    assert forall k :: hero <= k < |ps| ==> hs[k - hero] == ps[k].h;
    RowsHeightCovers(hs, margin);
    (if layout == TopGrid then ps[0].h + margin else 0) + RowsHeight(hs, margin)
  }

  /**
   * The top of the stack: the empty space times the vertical ratio,
   * truncated toward zero, but never above the margin. It is the margin
   * whenever the stack leaves no room, and otherwise the ratio point of the
   * empty space rounded down.
   */
  function StartY(total: int, style: Style): (y: int)
    requires ValidStyle(style)
    ensures y >= style.margin
    ensures CanvasH - total <= 0 ==> y == style.margin
    ensures (CanvasH - total) * style.ratioNum < (y + 1) * style.ratioDen
    ensures y == style.margin || (y > style.margin && y * style.ratioDen <= (CanvasH - total) * style.ratioNum)
  {
    var emptySpace := CanvasH - total;
    var startY := TruncDiv(emptySpace * style.ratioNum, style.ratioDen);
    if startY < style.margin then style.margin else startY
  }

  /**
   * The contract of StartY pins its value: any offset that is at least the
   * margin, not below the ratio point of the empty space rounded down, and
   * either the margin or not above that ratio point, is StartY.
   */
  lemma StartYUnique(total: int, style: Style, y: int)
    requires ValidStyle(style)
    requires y >= style.margin
    requires (CanvasH - total) * style.ratioNum < (y + 1) * style.ratioDen
    requires y == style.margin || y * style.ratioDen <= (CanvasH - total) * style.ratioNum
    ensures y == StartY(total, style)
  {
    var s := StartY(total, style);
    var p, d := (CanvasH - total) * style.ratioNum, style.ratioDen;
    if s != style.margin {
      assert s * d <= p < (y + 1) * d;
      StrictCancel(s, y + 1, d);
    }
    if y != style.margin {
      assert y * d <= p < (s + 1) * d;
      StrictCancel(y, s + 1, d);
    }
  }

  /** A positive common factor can be cancelled from both sides of a strict inequality. */
  lemma StrictCancel(a: int, b: int, d: int)
    requires d > 0 && a * d < b * d
    ensures a < b
  {
    assert (b - a) * d > 0 by {
      assert b * d - a * d == (b - a) * d;
    }
  }

  /**
   * The grid, row by row from height y: the first tile of a row in the left
   * column, the second in the right column, and the next row one row
   * height (its taller member) plus one margin lower.
   */
  function GridPlacements(grid: seq<Size>, gridW: int, margin: int, y: int): (pl: seq<Placement>)
    ensures |pl| == |grid|
    ensures |pl| > 0 ==> pl[0].y == y
    decreases |grid|
  {
    if |grid| == 0 then []
    else if |grid| == 1 then [Placement(grid[0], LeftX(gridW, margin), y)]
    else
      [Placement(grid[0], LeftX(gridW, margin), y), Placement(grid[1], RightX(gridW, margin), y)]
      + GridPlacements(grid[2..], gridW, margin, y + RowMax(HeightsOf(grid)) + margin)
  }

  /** All placements from the top offset y0: the hero first in TopGrid, then the grid. */
  function Placements(ps: seq<Size>, gridW: int, margin: int, layout: LayoutType, y0: int): (pl: seq<Placement>)
    requires layout == TopGrid ==> |ps| > 0
    ensures |pl| == |ps| && forall k :: 0 <= k < |pl| ==> pl[k].tile == ps[k]
    ensures |pl| > 0 ==> pl[0].y == y0
  {
    GridTiles(GridPart(ps, layout), gridW, margin, if layout == TopGrid then y0 + ps[0].h + margin else y0);
    if layout == TopGrid then
      [Placement(ps[0], HeroX(ps[0]), y0)] + GridPlacements(ps[1..], gridW, margin, y0 + ps[0].h + margin)
    else
      GridPlacements(ps, gridW, margin, y0)
  }

  /** The layout the engine draws for these images, style and archetype. */
  function Plan(images: seq<Size>, style: Style, layout: LayoutType): (pl: seq<Placement>)
    requires AllPositive(images) && ValidStyle(style)
    requires layout == TopGrid ==> |images| > 0
    ensures |pl| == |images|
    ensures forall k :: 0 <= k < |pl| ==> KeepsAspect(pl[k].tile, images[k]) && style.margin <= pl[k].y
  {
    var margin := style.margin;
    var gridW := MaxTileWidth(images, margin, layout);
    var ps := Processed(images, gridW, margin, layout);
    AllWithinStack(ps, gridW, margin, layout, StartY(StackHeight(ps, margin, layout), style));
    Placements(ps, gridW, margin, layout, StartY(StackHeight(ps, margin, layout), style))
  }

  /** The composites of pasting every placement in order, each shadow before its tile. */
  function PlanComposites(pl: seq<Placement>): (c: seq<Composite>)
    ensures |c| == 2 * |pl|
    decreases |pl|
  {
    if pl == [] then [] else PasteOps(pl[0].tile, pl[0].x, pl[0].y) + PlanComposites(pl[1..])
  }

  lemma {:induction false} PlanCompositesAppend(a: seq<Placement>, b: seq<Placement>)
    ensures PlanComposites(a + b) == PlanComposites(a) + PlanComposites(b)
    decreases |a|
  {
    if a != [] {
      assert (a + b)[0] == a[0];
      assert (a + b)[1..] == a[1..] + b;
      PlanCompositesAppend(a[1..], b);
    } else {
      assert a + b == b;
    }
  }

  /**
   * Paste order: placement k becomes composites 2k (its shadow) and 2k + 1
   * (the tile), so tiles go down in placement order and each tile directly
   * after its own shadow.
   */
  lemma {:induction false} PlanCompositesAt(pl: seq<Placement>, k: int)
    requires 0 <= k < |pl|
    ensures |PlanComposites(pl)| == 2 * |pl|
    ensures PlanComposites(pl)[2 * k] == PasteOps(pl[k].tile, pl[k].x, pl[k].y)[0]
    ensures PlanComposites(pl)[2 * k + 1] == Composite(TileLayer(pl[k].tile), pl[k].x, pl[k].y)
    decreases |pl|
  {
    if |pl| == 1 {
      assert pl[1..] == [];
    } else if k == 0 {
      PlanCompositesAt(pl[1..], 0);
    } else {
      PlanCompositesAt(pl[1..], k - 1);
    }
  }

  lemma SumAppend(a: int, xs: seq<int>)
    ensures Sum([a] + xs) == a + Sum(xs)
  {
    assert ([a] + xs)[1..] == xs;
  }

  /**
   * Grid placement: tile j sits in column j % 2 (left, then right) of row
   * j / 2, whose top is the start height plus the heights of the rows above
   * and one margin per row above.
   */
  lemma {:induction false} GridPlacementAt(grid: seq<Size>, gridW: int, margin: int, y: int, j: int)
    requires 0 <= j < |grid|
    ensures var pl := GridPlacements(grid, gridW, margin, y);
            && pl[j].tile == grid[j]
            && pl[j].x == (if j % 2 == 0 then LeftX(gridW, margin) else RightX(gridW, margin))
            && pl[j].y == y + Sum(RowMaxima(HeightsOf(grid))[..j / 2]) + (j / 2) * margin
    decreases |grid|
  {
    var hs := HeightsOf(grid);
    var rows := RowMaxima(hs);
    if j < 2 {
      assert rows[..j / 2] == [];
    } else {
      var rest := grid[2..];
      var rowH := RowMax(hs);
      var y' := y + rowH + margin;
      GridPlacementAt(rest, gridW, margin, y', j - 2);
      assert hs[2..] == HeightsOf(rest);
      var restRows := RowMaxima(HeightsOf(rest));
      assert rows == [rowH] + restRows;
      assert rows[..j / 2] == [rowH] + restRows[..(j - 2) / 2];
      SumAppend(rowH, restRows[..(j - 2) / 2]);
      var pl := GridPlacements(grid, gridW, margin, y);
      assert pl[j] == GridPlacements(rest, gridW, margin, y')[j - 2];
      HalfStep(j, margin);
    }
  }

  /** The grid placements carry the grid's tiles, in order. */
  lemma GridTiles(grid: seq<Size>, gridW: int, margin: int, y: int)
    ensures forall j :: 0 <= j < |grid| ==> GridPlacements(grid, gridW, margin, y)[j].tile == grid[j]
  {
    forall j | 0 <= j < |grid| ensures GridPlacements(grid, gridW, margin, y)[j].tile == grid[j] {
      GridPlacementAt(grid, gridW, margin, y, j);
    }
  }

  /** Two tiles further along is one row further down, in the same column. */
  lemma HalfStep(j: int, margin: int)
    requires j >= 2
    ensures (j - 2) / 2 == j / 2 - 1 && (j - 2) % 2 == j % 2
    ensures (j / 2) * margin == ((j - 2) / 2) * margin + margin
  {
    var r := j / 2;
    assert (j - 2) / 2 == r - 1;
    assert r * margin == (r - 1) * margin + margin;
  }

  lemma {:induction false} SumPrefixStep(xs: seq<int>, k: int)
    requires 0 <= k < |xs|
    ensures Sum(xs[..k + 1]) == Sum(xs[..k]) + xs[k]
    decreases k
  {
    if k == 0 {
      assert xs[..1] == [xs[0]] + [];
    } else {
      SumPrefixStep(xs[1..], k - 1);
      assert xs[..k + 1] == [xs[0]] + xs[1..][..k];
      assert xs[..k] == [xs[0]] + xs[1..][..k - 1];
      SumAppend(xs[0], xs[1..][..k]);
      SumAppend(xs[0], xs[1..][..k - 1]);
    }
  }

  /**
   * Row advance: the row after row r starts exactly row r's height (its
   * taller member) plus one margin below row r's top, so every tile of row
   * r ends at least a margin above the next row.
   */
  lemma NextRowTop(grid: seq<Size>, gridW: int, margin: int, y: int, j: int)
    requires 0 <= j < |grid| && 2 * (j / 2 + 1) < |grid|
    ensures var pl := GridPlacements(grid, gridW, margin, y);
            var next := 2 * (j / 2 + 1);
            && pl[next].y == pl[j].y + RowMaxima(HeightsOf(grid))[j / 2] + margin
            && pl[j].y + grid[j].h + margin <= pl[next].y
  {
    var pl := GridPlacements(grid, gridW, margin, y);
    var r := j / 2;
    var next := 2 * (r + 1);
    var hs := HeightsOf(grid);
    var rows := RowMaxima(hs);
    GridPlacementAt(grid, gridW, margin, y, j);
    GridPlacementAt(grid, gridW, margin, y, next);
    assert next / 2 == r + 1;
    HalfStep(next, margin);
    SumPrefixStep(rows, r);
    assert pl[next].y == pl[j].y + rows[r] + margin;
    RowCovers(hs, j);
    assert hs[j] == grid[j].h;
  }

  /** Every grid tile lies within the grid's vertical extent: at or below y, ending by y plus the grid height. */
  lemma {:induction false} GridWithinStack(grid: seq<Size>, gridW: int, margin: int, y: int, j: int)
    requires 0 <= j < |grid| && margin >= 0 && NonNegHeights(grid)
    ensures var pl := GridPlacements(grid, gridW, margin, y);
            y <= pl[j].y && pl[j].y + grid[j].h <= y + RowsHeight(HeightsOf(grid), margin)
    decreases |grid|
  {
    var hs := HeightsOf(grid);
    if j < 2 {
      if |grid| > 2 {
        assert hs[2..] == HeightsOf(grid[2..]);
        RowsHeightNonNeg(hs[2..], margin);
      }
    } else {
      var rest := grid[2..];
      assert hs[2..] == HeightsOf(rest);
      GridWithinStack(rest, gridW, margin, y + RowMax(hs) + margin, j - 2);
    }
  }

  /**
   * Placement of image k in the plan: the plan keeps the input order and
   * places the scaled image; in TopGrid the hero is centred at the top
   * offset; grid image g (counted after the hero) sits in column g % 2 of
   * row g / 2, below the hero and one margin, and the rows above it.
   */
  lemma PlanPlacement(images: seq<Size>, style: Style, layout: LayoutType, k: int)
    requires AllPositive(images) && ValidStyle(style)
    requires layout == TopGrid ==> |images| > 0
    requires 0 <= k < |images|
    ensures var m := style.margin;
            var gridW := MaxTileWidth(images, m, layout);
            var ps := Processed(images, gridW, m, layout);
            var y0 := StartY(StackHeight(ps, m, layout), style);
            var pl := Plan(images, style, layout);
            var hero := if layout == TopGrid then 1 else 0;
            var gridTop := if layout == TopGrid then y0 + ps[0].h + m else y0;
            var g := k - hero;
            && |pl| == |images|
            && pl[k].tile == ps[k]
            && (layout == TopGrid && k == 0 ==> pl[k].x == HeroX(ps[0]) && pl[k].y == y0)
            && (g >= 0 ==>
                  && pl[k].x == (if g % 2 == 0 then LeftX(gridW, m) else RightX(gridW, m))
                  && pl[k].y == gridTop + Sum(RowMaxima(HeightsOf(GridPart(ps, layout)))[..g / 2]) + (g / 2) * m)
  {
    var m := style.margin;
    var gridW := MaxTileWidth(images, m, layout);
    var ps := Processed(images, gridW, m, layout);
    PlacementAt(ps, gridW, m, layout, StartY(StackHeight(ps, m, layout), style), k);
  }

  /** PlanPlacement for any scaled images, column width and top offset. */
  lemma PlacementAt(ps: seq<Size>, gridW: int, m: int, layout: LayoutType, y0: int, k: int)
    requires layout == TopGrid ==> |ps| > 0
    requires 0 <= k < |ps|
    ensures var pl := Placements(ps, gridW, m, layout, y0);
            var hero := if layout == TopGrid then 1 else 0;
            var gridTop := if layout == TopGrid then y0 + ps[0].h + m else y0;
            var g := k - hero;
            && |pl| == |ps|
            && pl[k].tile == ps[k]
            && (layout == TopGrid && k == 0 ==> pl[k].x == HeroX(ps[0]) && pl[k].y == y0)
            && (g >= 0 ==>
                  && pl[k].x == (if g % 2 == 0 then LeftX(gridW, m) else RightX(gridW, m))
                  && pl[k].y == gridTop + Sum(RowMaxima(HeightsOf(GridPart(ps, layout)))[..g / 2]) + (g / 2) * m)
  {
    var hero := if layout == TopGrid then 1 else 0;
    var gridTop := if layout == TopGrid then y0 + ps[0].h + m else y0;
    var grid := GridPart(ps, layout);
    var pl := Placements(ps, gridW, m, layout, y0);
    if k >= hero {
      var gpl := GridPlacements(grid, gridW, m, gridTop);
      GridPlacementAt(grid, gridW, m, gridTop, k - hero);
      assert pl[k] == gpl[k - hero];
      assert grid[k - hero] == ps[k];
    }
  }

  /**
   * Every tile of the plan lies within the stack: no higher than the top
   * offset and ending no lower than the top offset plus the real stack
   * height.
   */
  lemma PlanWithinStack(images: seq<Size>, style: Style, layout: LayoutType, k: int)
    requires AllPositive(images) && ValidStyle(style)
    requires layout == TopGrid ==> |images| > 0
    requires 0 <= k < |images|
    ensures var m := style.margin;
            var ps := Processed(images, MaxTileWidth(images, m, layout), m, layout);
            var total := StackHeight(ps, m, layout);
            var y0 := StartY(total, style);
            var p := Plan(images, style, layout)[k];
            y0 <= p.y && p.y + p.tile.h <= y0 + total
  {
    var m := style.margin;
    var gridW := MaxTileWidth(images, m, layout);
    var ps := Processed(images, gridW, m, layout);
    PlacementsWithinStack(ps, gridW, m, layout, StartY(StackHeight(ps, m, layout), style), k);
  }

  lemma PlacementsWithinStack(ps: seq<Size>, gridW: int, m: int, layout: LayoutType, y0: int, k: int)
    requires NonNegHeights(ps) && m >= 0
    requires layout == TopGrid ==> |ps| > 0
    requires 0 <= k < |ps|
    ensures var p := Placements(ps, gridW, m, layout, y0)[k];
            y0 <= p.y && p.y + p.tile.h <= y0 + StackHeight(ps, m, layout)
  {
    var pl := Placements(ps, gridW, m, layout, y0);
    var hero := if layout == TopGrid then 1 else 0;
    var grid := GridPart(ps, layout);
    var gridTop := if layout == TopGrid then y0 + ps[0].h + m else y0;
    assert NonNegHeights(grid) by {
      forall i | 0 <= i < |grid| ensures grid[i].h >= 0 {
        assert grid[i] == ps[i + hero];
      }
    }
    RowsHeightNonNeg(HeightsOf(grid), m);
    if k >= hero {
      GridWithinStack(grid, gridW, m, gridTop, k - hero);
      GridPlacementAt(grid, gridW, m, gridTop, k - hero);
      assert pl[k] == GridPlacements(grid, gridW, m, gridTop)[k - hero];
      assert grid[k - hero] == ps[k];
    }
  }

  lemma AllWithinStack(ps: seq<Size>, gridW: int, m: int, layout: LayoutType, y0: int)
    requires NonNegHeights(ps) && m >= 0
    requires layout == TopGrid ==> |ps| > 0
    ensures forall k :: 0 <= k < |ps| ==> y0 <= Placements(ps, gridW, m, layout, y0)[k].y
  {
    forall k | 0 <= k < |ps| ensures y0 <= Placements(ps, gridW, m, layout, y0)[k].y {
      PlacementsWithinStack(ps, gridW, m, layout, y0, k);
    }
  }

  /** A stack no taller than the canvas less two margins, started at its offset, ends inside the canvas. */
  lemma StackEndsInsideCanvas(total: int, style: Style)
    requires ValidStyle(style) && total <= CanvasH - 2 * style.margin
    ensures StartY(total, style) + total <= CanvasH
  {
    var y := StartY(total, style);
    var e := CanvasH - total;
    var num, den := style.ratioNum, style.ratioDen;
    if y > style.margin {
      assert y * den <= e * num;
      assert e * num <= e * den by {
        assert e * den - e * num == e * (den - num);
      }
      CancelFactor(y, e, den);
    }
  }

  /** A positive common factor can be cancelled from both sides of an inequality. */
  lemma CancelFactor(a: int, b: int, d: int)
    requires d > 0 && a * d <= b * d
    ensures a <= b
  {
    assert (b - a) * d >= 0 by {
      assert b * d - a * d == (b - a) * d;
    }
  }

  /**
   * When the sizing estimate fits, the real layout fits: every tile lies
   * inside the canvas, at least a margin from the top and from both sides.
   * (When it does not fit, the width is scaled down but the stack may still
   * overflow, so no such promise is made.)
   */
  lemma FitsWhenEstimateFits(images: seq<Size>, style: Style, layout: LayoutType, k: int)
    requires AllPositive(images) && ValidStyle(style)
    requires layout == TopGrid ==> |images| > 0
    requires 0 <= k < |images|
    requires SimulatedHeight(images, style.margin, layout, InitialWidth(style.margin))
             <= AvailableHeight(style.margin)
    ensures var p := Plan(images, style, layout)[k];
            && style.margin <= p.x && p.x + p.tile.w <= CanvasW - style.margin
            && style.margin <= p.y && p.y + p.tile.h <= CanvasH
  {
    var m := style.margin;
    var w0 := InitialWidth(m);
    MaxTileWidthBounds(images, m, layout);
    var gridW := MaxTileWidth(images, m, layout);
    assert gridW == w0;
    var ps := Processed(images, gridW, m, layout);
    var total := StackHeight(ps, m, layout);
    RealHeightIsEstimate(images, m, layout);
    StackEndsInsideCanvas(total, style);
    PlanWithinStack(images, style, layout, k);
    PlanPlacement(images, style, layout, k);
  }

  /** With the first-pass width kept, the real stack height of the scaled tiles equals the estimate. */
  lemma RealHeightIsEstimate(images: seq<Size>, margin: int, layout: LayoutType)
    requires AllPositive(images) && ValidMargin(margin)
    requires layout == TopGrid ==> |images| > 0
    ensures var w0 := InitialWidth(margin);
            StackHeight(Processed(images, w0, margin, layout), margin, layout)
            == SimulatedHeight(images, margin, layout, w0)
  {
    var w0 := InitialWidth(margin);
    var ps := Processed(images, w0, margin, layout);
    GridPartPositive(images, layout);
    var grid := GridPart(images, layout);
    var hero := if layout == TopGrid then 1 else 0;
    var sim := SimHeights(grid, w0);
    var actual := HeightsOf(GridPart(ps, layout));
    assert |actual| == |sim|;
    forall i | 0 <= i < |grid|
      ensures actual[i] == sim[i]
    {
      assert GridPart(ps, layout)[i] == ps[i + hero];
      assert grid[i] == images[i + hero];
      assert ps[i + hero] == ResizeKeepingAspect(images[i + hero], Some(w0), None);
    }
    assert actual == sim;
    if layout == TopGrid {
      assert ps[0] == ResizeKeepingAspect(images[0], Some(HeroWidth(w0, margin)), None);
      assert HeroWidth(w0, margin) == 2 * w0 + margin;
    }
  }

  /** Phase 2 of the layout pass: scale every image, in input order. */
  method ScaleImages(images: seq<Size>, gridW: int, margin: int, layout: LayoutType)
    returns (processed: seq<Size>)
    requires AllPositive(images)
    requires layout == TopGrid ==> |images| > 0
    ensures processed == Processed(images, gridW, margin, layout)
  {
    ghost var ps := Processed(images, gridW, margin, layout);
    var mainW := gridW * 2 + margin;
    processed := [];
    var startIdx := 0;
    if layout == TopGrid {
      processed := processed + [ResizeKeepingAspect(images[0], Some(mainW), None)];
      startIdx := 1;
    }
    var j := startIdx;
    while j < |images|
      invariant startIdx <= j <= |images|
      invariant processed == ps[..j]
    {
      processed := processed + [ResizeKeepingAspect(images[j], Some(gridW), None)];
      j := j + 1;
    }
  }

  /**
   * Phase 3 of the layout pass: the real stack height of the scaled tiles
   * and the list of grid row heights, accumulated row by row.
   */
  lemma MeasureStep(hs: seq<int>, i: int, margin: int, done: seq<int>, h: int)
    requires 0 <= i < |hs| && i == 2 * |done|
    requires done == RowMaxima(hs)[..|done|] && h == RowMax(hs[i..])
    ensures done + [h] == RowMaxima(hs)[..|done| + 1]
    ensures RowsHeight(hs[i..], margin)
            == h + (if i + 2 < |hs| then margin else 0) + RowsHeight(hs[Min(i + 2, |hs|)..], margin)
  {
    RowStep(hs, i, margin);
    RowMaximaAt(hs, |done|);
    assert RowMaxima(hs)[..|done| + 1] == RowMaxima(hs)[..|done|] + [RowMaxima(hs)[|done|]];
  }

  method MeasureStack(processed: seq<Size>, margin: int, layout: LayoutType)
    returns (totalH: int, rowHeights: seq<int>)
    requires layout == TopGrid ==> |processed| > 0
    ensures totalH == StackHeight(processed, margin, layout)
    ensures rowHeights == RowMaxima(HeightsOf(GridPart(processed, layout)))
  {
    totalH := 0;
    rowHeights := [];
    var curr := 0;
    if layout == TopGrid {
      totalH := totalH + processed[0].h + margin;
      curr := 1;
    }
    var gridItems := processed[curr..];
    assert gridItems == GridPart(processed, layout);
    ghost var hs := HeightsOf(gridItems);
    ghost var rows := RowMaxima(hs);
    var n := |gridItems|;
    assert hs[0..] == hs;
    ghost var base := totalH;
    var i := 0;
    while i < n
      invariant 0 <= i <= n + 1 && i == 2 * |rowHeights|
      invariant rowHeights == rows[..|rowHeights|]
      invariant totalH + RowsHeight(hs[Min(i, n)..], margin) == base + RowsHeight(hs, margin)
    {
      var h := gridItems[i].h;
      if i + 1 < n {
        h := Max(h, gridItems[i + 1].h);
      }
      assert h == RowMax(hs[i..]) by {
        assert hs[i..][0] == gridItems[i].h;
        assert i + 1 < n ==> hs[i..][1] == gridItems[i + 1].h;
      }
      MeasureStep(hs, i, margin, rowHeights, h);
      rowHeights := rowHeights + [h];
      totalH := totalH + h;
      if i + 2 < n {
        totalH := totalH + margin;
      }
      i := i + 2;
    }
    assert rows[..|rowHeights|] == rows;
  }

  /**
   * One row of the grid walk: the composites of the grid from row r on are
   * that row's left and (when present) right pastes, then the rows after it
   * from one row height and one margin lower.
   */
  lemma DrawStep(grid: seq<Size>, rowHeights: seq<int>, r: int, gridW: int, margin: int, y: int)
    requires rowHeights == RowMaxima(HeightsOf(grid)) && 0 <= 2 * r < |grid|
    ensures r < |rowHeights|
    ensures PlanComposites(GridPlacements(grid[2 * r..], gridW, margin, y))
            == PasteOps(grid[2 * r], LeftX(gridW, margin), y)
               + (if 2 * r + 1 < |grid| then PasteOps(grid[2 * r + 1], RightX(gridW, margin), y) else [])
               + PlanComposites(GridPlacements(grid[Min(2 * r + 2, |grid|)..], gridW, margin, y + rowHeights[r] + margin))
  {
    var hs := HeightsOf(grid);
    var rest := grid[2 * r..];
    RowMaximaAt(hs, r);
    assert hs[2 * r..] == HeightsOf(rest);
    var pl := GridPlacements(rest, gridW, margin, y);
    var tail := GridPlacements(grid[Min(2 * r + 2, |grid|)..], gridW, margin, y + rowHeights[r] + margin);
    var left := Placement(grid[2 * r], LeftX(gridW, margin), y);
    if |rest| == 1 {
      assert grid[Min(2 * r + 2, |grid|)..] == [];
      assert pl == [left];
      assert pl[1..] == [];
    } else {
      var right := Placement(grid[2 * r + 1], RightX(gridW, margin), y);
      assert rest[2..] == grid[Min(2 * r + 2, |grid|)..];
      assert pl == [left, right] + tail;
      PlanCompositesAppend([left, right], tail);
      assert [left, right][1..] == [right];
      assert [right][1..] == [];
    }
  }

  /**
   * DrawStep in the shape the grid walk needs: once the pastes of the row
   * starting at tile i are appended to what was drawn before, the rows
   * after it remain, from one row height and one margin lower.
   */
  lemma DrawStepAfter(before: seq<Composite>, after: seq<Composite>, grid: seq<Size>, rowHeights: seq<int>,
                      i: int, r: int, gridW: int, margin: int, y: int)
    returns (rest: seq<Composite>)
    requires rowHeights == RowMaxima(HeightsOf(grid)) && 0 <= i < |grid| && i == 2 * r
    requires var left := PasteOps(grid[i], LeftX(gridW, margin), y);
             after == if i + 1 < |grid|
                      then before + left + PasteOps(grid[i + 1], RightX(gridW, margin), y)
                      else before + left
    ensures r < |rowHeights|
    ensures rest == PlanComposites(GridPlacements(grid[Min(i + 2, |grid|)..], gridW, margin, y + rowHeights[r] + margin))
    ensures before + PlanComposites(GridPlacements(grid[Min(i, |grid|)..], gridW, margin, y)) == after + rest
  {
    DrawStep(grid, rowHeights, r, gridW, margin, y);
    rest := PlanComposites(GridPlacements(grid[Min(i + 2, |grid|)..], gridW, margin, y + rowHeights[r] + margin));
    var whole := PlanComposites(GridPlacements(grid[2 * r..], gridW, margin, y));
    var left := PasteOps(grid[i], LeftX(gridW, margin), y);
    assert Min(i, |grid|) == 2 * r;
    if i + 1 < |grid| {
      var right := PasteOps(grid[i + 1], RightX(gridW, margin), y);
      assert whole == left + right + rest;
      ConcatAssoc(before, left, right, rest);
    } else {
      assert whole == left + [] + rest;
      ConcatAssoc(before, left, [], rest);
    }
  }

  lemma ConcatAssoc<T>(a: seq<T>, b: seq<T>, c: seq<T>, d: seq<T>)
    ensures a + (b + c + d) == a + b + c + d
    ensures c == [] ==> a + (b + c + d) == a + b + d && a + (b + d) == a + b + d
  {
  }

  /** One row of the grid walk: the left tile, then the right tile when there is one, both at height y. */
  method DrawRow(canvas: Canvas, gridItems: seq<Size>, rowHeights: seq<int>,
                 i: int, r: int, gridW: int, margin: int, y: int, ghost goal: seq<Composite>)
    requires rowHeights == RowMaxima(HeightsOf(gridItems)) && 0 <= i < |gridItems| && i == 2 * r
    requires canvas.composites + PlanComposites(GridPlacements(gridItems[Min(i, |gridItems|)..], gridW, margin, y)) == goal
    modifies canvas
    ensures r < |rowHeights|
    ensures canvas.composites
            + PlanComposites(GridPlacements(gridItems[Min(i + 2, |gridItems|)..], gridW, margin, y + rowHeights[r] + margin))
            == goal
  {
    var centerX := CanvasW / 2;
    ghost var before := canvas.composites;
    var left := gridItems[i];
    var leftX := centerX - gridW - margin / 2;
    assert leftX == LeftX(gridW, margin);
    canvas.PasteWithShadow(left, leftX, y);
    ghost var leftOps := PasteOps(gridItems[i], LeftX(gridW, margin), y);
    assert canvas.composites == before + leftOps;
    if i + 1 < |gridItems| {
      var right := gridItems[i + 1];
      var rightX := centerX + margin / 2;
      assert rightX == RightX(gridW, margin);
      canvas.PasteWithShadow(right, rightX, y);
      assert canvas.composites == before + leftOps + PasteOps(gridItems[i + 1], RightX(gridW, margin), y);
    }
    ghost var rest := DrawStepAfter(before, canvas.composites, gridItems, rowHeights, i, r, gridW, margin, y);
  }

  /**
   * The grid part of phase 4: paste the grid rows from height y, left tile
   * then right tile, moving down by each row's height and one margin.
   */
  method DrawGrid(canvas: Canvas, gridItems: seq<Size>, rowHeights: seq<int>,
                  gridW: int, margin: int, y: int)
    requires rowHeights == RowMaxima(HeightsOf(gridItems))
    modifies canvas
    ensures canvas.composites == old(canvas.composites) + PlanComposites(GridPlacements(gridItems, gridW, margin, y))
  {
    var n := |gridItems|;
    var drawY := y;
    var rowCount := 0;
    var i := 0;
    ghost var goal := old(canvas.composites) + PlanComposites(GridPlacements(gridItems, gridW, margin, y));
    assert gridItems[0..] == gridItems;
    while i < n
      invariant 0 <= i <= n + 1 && i == 2 * rowCount
      invariant canvas.composites + PlanComposites(GridPlacements(gridItems[Min(i, n)..], gridW, margin, drawY)) == goal
    {
      DrawRow(canvas, gridItems, rowHeights, i, rowCount, gridW, margin, drawY, goal);
      drawY := drawY + rowHeights[rowCount] + margin;
      rowCount := rowCount + 1;
      i := i + 2;
    }
    assert gridItems[n..] == [];
  }

  /**
   * Phase 4 of the layout pass: from the top offset, paste the hero centred
   * (TopGrid) and move down by its height and one margin, then paste the
   * grid rows.
   */
  method DrawStack(canvas: Canvas, processed: seq<Size>, rowHeights: seq<int>,
                   gridW: int, margin: int, layout: LayoutType, startY: int)
    requires layout == TopGrid ==> |processed| > 0
    requires rowHeights == RowMaxima(HeightsOf(GridPart(processed, layout)))
    modifies canvas
    ensures canvas.composites
            == old(canvas.composites) + PlanComposites(Placements(processed, gridW, margin, layout, startY))
  {
    ghost var pl := Placements(processed, gridW, margin, layout, startY);
    ghost var drawn: seq<Placement> := [];
    var drawY := startY;
    var drawIdx := 0;
    if layout == TopGrid {
      var img := processed[0];
      canvas.PasteWithShadow(img, (CanvasW - img.w) / 2, drawY);
      drawn := [Placement(img, HeroX(img), startY)];
      drawY := drawY + img.h + margin;
      drawIdx := 1;
      assert canvas.composites == old(canvas.composites) + PlanComposites(drawn) by {
        PlanCompositesSingle(drawn[0]);
      }
    }
    ghost var mid := canvas.composites;
    assert mid == old(canvas.composites) + PlanComposites(drawn);
    var gridItems := processed[drawIdx..];
    ghost var gridPl := GridPlacements(gridItems, gridW, margin, drawY);
    assert pl == drawn + gridPl by {
      PlacementsSplit(processed, gridW, margin, layout, startY);
    }
    PlanCompositesAppend(drawn, gridPl);
    DrawGrid(canvas, gridItems, rowHeights, gridW, margin, drawY);
    assert canvas.composites == mid + PlanComposites(gridPl);
    ConcatAssoc(old(canvas.composites), PlanComposites(drawn), [], PlanComposites(gridPl));
  }

  /** The placements are the hero's (TopGrid), then the grid walk from below the hero. */
  lemma PlacementsSplit(ps: seq<Size>, gridW: int, m: int, layout: LayoutType, y0: int)
    requires layout == TopGrid ==> |ps| > 0
    ensures Placements(ps, gridW, m, layout, y0)
            == (if layout == TopGrid then [Placement(ps[0], HeroX(ps[0]), y0)] else [])
               + GridPlacements(ps[(if layout == TopGrid then 1 else 0)..], gridW, m,
                                if layout == TopGrid then y0 + ps[0].h + m else y0)
  {
    if layout == SymGrid {
      assert ps[0..] == ps;
    }
  }

  lemma PlanCompositesSingle(p: Placement)
    ensures PlanComposites([p]) == PasteOps(p.tile, p.x, p.y)
  {
    assert [p][1..] == [];
  }

  /**
   * The layout pass: size the grid, scale every image, recompute the real
   * stack height, pick the top offset, then paste the hero and the grid
   * rows top-down.
   */
  method LayoutEngine(canvas: Canvas, images: seq<Size>, style: Style, layout: LayoutType)
    requires AllPositive(images) && ValidStyle(style)
    requires layout == TopGrid ==> |images| > 0
    modifies canvas
    ensures canvas.composites == old(canvas.composites) + PlanComposites(Plan(images, style, layout))
  {
    var margin := style.margin;
    var gridW := CalculateMaxDimensions(images, margin, layout);
    var processed := ScaleImages(images, gridW, margin, layout);
    var totalH, rowHeights := MeasureStack(processed, margin, layout);

    var startY := StartY(totalH, style);
    assert Plan(images, style, layout) == Placements(processed, gridW, margin, layout, startY);

    DrawStack(canvas, processed, rowHeights, gridW, margin, layout, startY);
  }
}
