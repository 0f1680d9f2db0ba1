/**
 * The sizing estimate: the common grid-tile width, found by simulating the
 * stack height at the widest possible column and, when that overflows,
 * scaling the width down in proportion.
 */
module Sizing {
  import opened Config
  import opened Scaling
  import opened Stack

  /** First-pass column width: two equal columns with three margins (both sides and between). */
  function InitialWidth(margin: int): (w: int)
    requires ValidMargin(margin)
    ensures 0 < w && 2 * w + 3 * margin <= CanvasW < 2 * w + 3 * margin + 2
  {
    (CanvasW - margin * 3) / 2
  }

  /** The height the stack may take: the canvas less a margin above and below. */
  function AvailableHeight(margin: int): (h: int)
    ensures ValidMargin(margin) ==> CanvasH / 2 < h <= CanvasH
  {
    CanvasH - margin * 2
  }

  /** Heights of the grid images when each is scaled to width w. */
  function SimHeights(grid: seq<Size>, w: int): (hs: seq<int>)
    requires AllPositive(grid)
    ensures |hs| == |grid|
    ensures w >= 0 ==> forall k :: 0 <= k < |hs| ==> 0 <= hs[k] && KeepsAspect(Size(w, hs[k]), grid[k])
  {
    seq(|grid|, k requires 0 <= k < |grid| => ScaledHeight(grid[k], w))
  }

  lemma GridPartPositive(images: seq<Size>, layout: LayoutType)
    requires AllPositive(images) && (layout == TopGrid ==> |images| > 0)
    ensures AllPositive(GridPart(images, layout))
  {
    var grid := GridPart(images, layout);
    forall k | 0 <= k < |grid| ensures Positive(grid[k]) {
      if layout == TopGrid {
        assert grid[k] == images[k + 1];
      }
    }
  }

  /**
   * The estimated stack height at column width w: in TopGrid the hero at
   * width 2w + margin plus one margin, then the grid rows at width w.
   */
  function SimulatedHeight(images: seq<Size>, margin: int, layout: LayoutType, w: int): (h: int)
    requires AllPositive(images)
    requires layout == TopGrid ==> |images| > 0
    ensures w >= 0 && margin >= 0 ==> h >= 0
    ensures w >= 0 && margin >= 0 ==>
              && (layout == TopGrid ==> ScaledHeight(images[0], 2 * w + margin) + margin <= h)
              && forall k :: (if layout == TopGrid then 1 else 0) <= k < |images| ==> 0 <= ScaledHeight(images[k], w) <= h
  {
    GridPartPositive(images, layout);
    var hero := if layout == TopGrid then 1 else 0;
    var hs := SimHeights(GridPart(images, layout), w);
    assert forall k :: hero <= k < |images| ==> hs[k - hero] == ScaledHeight(images[k], w);
    RowsHeightCovers(hs, margin);
    (if layout == TopGrid then ScaledHeight(images[0], 2 * w + margin) + margin else 0)
    + RowsHeight(SimHeights(GridPart(images, layout), w), margin)
  }

  /** The width the estimate settles on (the specification of CalculateMaxDimensions). */
  function MaxTileWidth(images: seq<Size>, margin: int, layout: LayoutType): (w: int)
    requires AllPositive(images) && ValidMargin(margin)
    requires layout == TopGrid ==> |images| > 0
    ensures 0 <= w <= InitialWidth(margin)
  {
    var w0 := InitialWidth(margin);
    var total := SimulatedHeight(images, margin, layout, w0);
    var avail := AvailableHeight(margin);
    if total <= avail then w0
    else
      ShrinkBelow(w0, avail, total);
      TruncDiv(w0 * avail, total)
  }

  /**
   * The estimate keeps the first-pass width when the simulated stack fits;
   * otherwise it is that width times available / simulated, rounded down,
   * which is strictly smaller. Either way it never exceeds the first pass.
   */
  lemma MaxTileWidthBounds(images: seq<Size>, margin: int, layout: LayoutType)
    requires AllPositive(images) && ValidMargin(margin)
    requires layout == TopGrid ==> |images| > 0
    ensures var w0 := InitialWidth(margin);
            var total := SimulatedHeight(images, margin, layout, w0);
            var avail := AvailableHeight(margin);
            var w := MaxTileWidth(images, margin, layout);
            && 0 <= w <= w0
            && (total <= avail ==> w == w0)
            && (total > avail ==> w < w0 && w * total <= w0 * avail < (w + 1) * total)
  {
    var w0 := InitialWidth(margin);
    var total := SimulatedHeight(images, margin, layout, w0);
    var avail := AvailableHeight(margin);
    if total > avail {
      ShrinkBelow(w0, avail, total);
    }
  }

  /** Scaling a positive width by avail / total < 1 and rounding down gives a smaller width. */
  lemma ShrinkBelow(w0: int, avail: int, total: int)
    requires 0 < w0 && 0 < avail < total
    ensures var q := TruncDiv(w0 * avail, total);
            0 <= q < w0 && q * total <= w0 * avail < (q + 1) * total
  {
    var p := w0 * avail;
    assert 0 < p;
    var q := TruncDiv(p, total);
    assert q * total <= p;
    assert p < w0 * total by {
      assert w0 * total - p == w0 * (total - avail);
      assert w0 * (total - avail) > 0;
    }
  }

  /**
   * Structure of the estimate: the grid forms ceil(n / 2) rows, each as tall
   * as the taller of its one or two members at width w, with a margin
   * between consecutive rows and none after the last; TopGrid adds the hero
   * at width 2w + margin and one margin.
   */
  lemma SimulatedHeightStructure(images: seq<Size>, margin: int, layout: LayoutType, w: int)
    requires AllPositive(images)
    requires layout == TopGrid ==> |images| > 0
    requires |GridPart(images, layout)| > 0
    ensures AllPositive(GridPart(images, layout))
    ensures AllPositive(GridPart(images, layout)) &&
            var grid := GridPart(images, layout);
            var rows := RowMaxima(SimHeights(grid, w));
            && |rows| == (|grid| + 1) / 2
            && (forall r :: 0 <= r < |rows| ==>
                  rows[r] == if 2 * r + 1 < |grid|
                             then Max(ScaledHeight(grid[2 * r], w), ScaledHeight(grid[2 * r + 1], w))
                             else ScaledHeight(grid[2 * r], w))
            && SimulatedHeight(images, margin, layout, w)
               == (if layout == TopGrid then ScaledHeight(images[0], 2 * w + margin) + margin else 0)
                  + Sum(rows) + margin * (|rows| - 1)
  {
    GridPartPositive(images, layout);
    var grid := GridPart(images, layout);
    var hs := SimHeights(grid, w);
    var rows := RowMaxima(hs);
    RowsHeightIsSum(hs, margin);
    forall r | 0 <= r < |rows|
      ensures rows[r] == if 2 * r + 1 < |grid|
                         then Max(ScaledHeight(grid[2 * r], w), ScaledHeight(grid[2 * r + 1], w))
                         else ScaledHeight(grid[2 * r], w)
    {
      RowMaximaAt(hs, r);
    }
  }

  /**
   * The sizing pass: simulate the stack height at the first-pass width,
   * row by row, then keep that width or scale it down to fit.
   */
  method CalculateMaxDimensions(images: seq<Size>, margin: int, layout: LayoutType) returns (w: int)
    requires AllPositive(images) && ValidMargin(margin)
    requires layout == TopGrid ==> |images| > 0
    ensures w == MaxTileWidth(images, margin, layout)
  {
    var maxW := (CanvasW - margin * 3) / 2;
    var currentW := maxW;
    var totalH := 0;
    var startIdx := 0;
    if layout == TopGrid {
      var mainW := currentW * 2 + margin;
      totalH := totalH + ScaledHeight(images[0], mainW) + margin;
      startIdx := 1;
    }
    GridPartPositive(images, layout);
    var grid := images[startIdx..];
    assert grid == GridPart(images, layout);
    var gridH := SimulateRows(grid, currentW, margin);
    totalH := totalH + gridH;
    assert maxW == InitialWidth(margin);
    assert totalH == SimulatedHeight(images, margin, layout, maxW);
    var availableH := CanvasH - margin * 2;
    if totalH <= availableH {
      w := currentW;
    } else {
      w := TruncDiv(currentW * availableH, totalH);
    }
  }

  /** The grid part of the sizing pass: walk the grid two tiles at a time, summing rows and the margins between them. */
  method SimulateRows(grid: seq<Size>, w: int, margin: int) returns (totalH: int)
    requires AllPositive(grid)
    ensures totalH == RowsHeight(SimHeights(grid, w), margin)
  {
    ghost var hs := SimHeights(grid, w);
    assert hs[0..] == hs;
    totalH := 0;
    var i := 0;
    while i < |grid|
      invariant 0 <= i <= |grid| + 1 && i % 2 == 0
      invariant totalH + RowsHeight(hs[Min(i, |grid|)..], margin) == RowsHeight(hs, margin)
    {
      var rowH := ScaledHeight(grid[i], w);
      if i + 1 < |grid| {
        rowH := Max(rowH, ScaledHeight(grid[i + 1], w));
      }
      assert rowH == RowMax(hs[i..]);
      totalH := totalH + rowH;
      if i + 2 < |grid| {
        totalH := totalH + margin;
        assert hs[i..][2..] == hs[i + 2..];
      }
      i := i + 2;
    }
  }

  /**
   * The scale-down does not promise a fit: it shrinks the margins between
   * rows along with the rows, so the stack simulated again at the returned
   * width can still overflow. Six square images in the dense grid: the
   * first pass gives 562 px columns and a 1736 px stack against 1550 px
   * available; the scaled width 501 still gives a 1553 px stack.
   */
  lemma ScaledWidthMayStillOverflow()
    ensures var images := [Size(1, 1), Size(1, 1), Size(1, 1), Size(1, 1), Size(1, 1), Size(1, 1)];
            && AllPositive(images)
            && SimulatedHeight(images, 25, SymGrid, InitialWidth(25)) == 1736
            && MaxTileWidth(images, 25, SymGrid) == 501
            && SimulatedHeight(images, 25, SymGrid, 501) == 1553 > AvailableHeight(25)
  {
    var images := [Size(1, 1), Size(1, 1), Size(1, 1), Size(1, 1), Size(1, 1), Size(1, 1)];
    assert InitialWidth(25) == 562;
    SixSquares(images, 562);
    SixSquares(images, 501);
  }

  /** The simulated dense-grid height of six square images at width w: three rows of w and two margins. */
  lemma SixSquares(images: seq<Size>, w: int)
    requires images == [Size(1, 1), Size(1, 1), Size(1, 1), Size(1, 1), Size(1, 1), Size(1, 1)]
    requires w >= 0
    ensures AllPositive(images) && SimulatedHeight(images, 25, SymGrid, w) == 3 * w + 50
  {
    assert ScaledHeight(Size(1, 1), w) == w;
    var hs := SimHeights(images, w);
    assert hs == [w, w, w, w, w, w];
    assert RowsHeight([w, w], 25) == w;
    assert [w, w, w, w][2..] == [w, w];
    assert RowsHeight([w, w, w, w], 25) == 2 * w + 25;
    assert hs[2..] == [w, w, w, w];
  }
}
