# Poster layout engine — a Dafny model

This project models the layout and compositing engine of the poster
generator in `poster_core.py`. The engine takes five or more photographs
and composes them onto a transparent 1200 x 1600 canvas:

- the image count picks a style (`poster` or `dense`) and an archetype:
  - `TopGrid` is a full-width hero tile above a two-column grid;
  - `SymGrid` is a two-column grid only;
- a sizing pass estimates the common column width from a simulated stack
  height, and scales that width down when the stack would overflow;
- every image is scaled to its width, keeping its aspect ratio;
- the real stack height is recomputed, and the stack is offset vertically
  by the style's ratio of the empty space, but never above the margin;
- tiles are pasted top-down, row by row, left before right. Each tile is
  pasted as a drop shadow followed by the tile itself.

Images are modelled by their sizes only. The canvas is a class whose state
is the ordered list of composites applied to it. A composite is a shadow
bitmap or a tile, together with the position of its top-left corner. The
float expressions of the source become exact integer arithmetic:

- `int(W / (w / h))` is `W * h / w`, truncated toward zero (`TruncDiv`);
- the vertical ratios are the fractions 618/1000 and 1/2.

Modules, in dependency order:

- `Config`: constants, sizes, styles, and truncating division.
- `Scaling`: `_resize_keeping_aspect`.
- `Stack`: row arithmetic shared by the sizing pass and the layout pass.
- `Sizing`: `_calculate_max_dimensions`, as a method proved against the function `MaxTileWidth`.
- `Shadow`: the geometry of `_generate_shadow`, `_paste_with_shadow`, and the `Canvas` class.
- `Layout`: `_layout_engine`. Its phases are methods, proved against the function `Plan` and the placement lemmas.
- `Poster`: the routing and `generate_poster_image`.

Two behaviours of the code are easy to misread. The model follows the
code in both:

- One might expect the sizing pass never to return a width whose
  simulated stack overflows. The code scales the whole height, margins
  included, so it can. `Sizing.ScaledWidthMayStillOverflow` gives an input
  where it does.
- One might expect the gap between the two columns to be one margin. The
  code leaves `2 * (margin // 2)`, which equals the margin only for an even
  margin. The `poster` margin of 50 leaves a 50 px gap; the `dense` margin
  of 25 leaves 24 px. `Layout.RightX` states the code's gap.

## Model

| member | source | states |
|---|---|---|
| Config.TruncDiv | poster_core.py:151 | Python's `int()` of the exact quotient a / b truncates toward zero: \|q\|·b ≤ \|a\| < (\|q\|+1)·b, and q has the sign of a |
| Config.GridPart | poster_core.py:93 | the grid is every image after the hero in TopGrid (the list is the hero followed by the grid, one shorter), and the whole list in SymGrid |
| Scaling.ScaledHeight | poster_core.py:88-89 | the height for width W keeps the aspect ratio: for W ≥ 0 it is the largest h' ≥ 0 with h'·w ≤ W·h, and the mirror image of that for W < 0 |
| Scaling.ResizeKeepingAspect | poster_core.py:34-45 | a truthy target width is taken as is, and the height follows the aspect ratio (`KeepsAspect`: the largest height not taller than the original's ratio); otherwise a truthy target height, with the width following; otherwise (no target, or 0) the image is unchanged |
| Shadow.GenerateShadow | poster_core.py:47-61 | the shadow bitmap is the tile padded by 45 px on every side, (w+90, h+90). The filled rectangle is inset 47 px from every edge, so it spans (47, 47) to (43+w, 43+h). It is black at alpha 80 and blurred with radius 15 |
| Shadow.PasteOps | poster_core.py:63-73 | one paste is two composites: first the shadow at (x-37, y-37), whose filled rectangle lands on the tile's rectangle moved by (8, 8) and shrunk 2 px per edge; then the tile at (x, y) |
| Shadow.Canvas.constructor | poster_core.py:194 | a new canvas is 1200 x 1600 with nothing composited |
| Shadow.Canvas.PasteWithShadow | poster_core.py:63-73 | a paste appends exactly the shadow composite and then the tile composite, and changes nothing else |
| Stack.RowMax | poster_core.py:141-144 | a row is as tall as the taller of its one or two tiles: at least each of them, and equal to one of them |
| Stack.RowMaxima | poster_core.py:141-145 | n tiles form ceil(n / 2) rows |
| Stack.RowMaximaAt | poster_core.py:141-145 | row r holds tiles 2r and 2r+1 (when present), and its height is their maximum |
| Stack.RowsHeight | poster_core.py:141-147 | the grid height (rows plus margins between them) is never negative when no tile height and no margin is negative; its value as a sum is `RowsHeightIsSum` |
| Stack.RowCovers | poster_core.py:141-145 | tile j lies in row j / 2, which is at least as tall as the tile |
| Stack.RowsHeightCovers | poster_core.py:141-147 | with no negative height or margin, the grid height is non-negative and at least each tile's height |
| Stack.RowsHeightIsSum | poster_core.py:141-147 | the grid height is the sum of the row heights, plus one margin per gap between consecutive rows and none after the last |
| Sizing.InitialWidth | poster_core.py:78-79 | the first-pass column width is positive, and two columns plus three margins fit in 1200 px with less than 2 px to spare |
| Sizing.AvailableHeight | poster_core.py:108 | the height left for the stack, 1600 less a margin above and below, is more than half the canvas and at most all of it, for every allowed margin |
| Sizing.SimHeights | poster_core.py:96-102 | one height per grid image, each non-negative and keeping that image's aspect ratio at width w (`KeepsAspect`) |
| Sizing.SimulatedHeight | poster_core.py:81-105 | the estimated stack height at column width w (w, margin ≥ 0) is at least the TopGrid hero at width 2w + margin plus one margin, and at least every grid tile at width w; it is never negative |
| Sizing.SimulateRows | poster_core.py:93-105 | the row loop of the sizing pass, two tiles at a time, returns exactly the grid height of the tiles scaled to width w |
| Sizing.SimulatedHeightStructure | poster_core.py:86-105 | the simulated stack is the TopGrid hero at width 2w+margin plus one margin, then ceil(n/2) rows, each as tall as the taller of its members at width w, with margins only between rows |
| Sizing.MaxTileWidth | poster_core.py:107-113 | the width the sizing pass settles on is never negative and never above the first-pass width |
| Sizing.MaxTileWidthBounds | poster_core.py:107-113 | if the simulated stack fits in 1600 - 2·margin, the first-pass width is kept. Otherwise the result is floor(w0 · available / simulated), which is strictly smaller than w0 |
| Sizing.ShrinkBelow | poster_core.py:112-113 | scaling a positive width by available / simulated < 1 and truncating gives a smaller, non-negative width |
| Sizing.CalculateMaxDimensions | poster_core.py:75-113 | the row-by-row simulation loop and the scale-down return exactly `MaxTileWidth` |
| Sizing.ScaledWidthMayStillOverflow | poster_core.py:107-113 | six square images in the dense grid: a 1736 px stack is scaled to width 501, whose simulated stack of 1553 px still exceeds the 1550 px available |
| Layout.HeroX | poster_core.py:161 | the hero is centred: the space to its right equals the space to its left, or exceeds it by one pixel |
| Layout.HeroWidth | poster_core.py:120 | the hero spans from the left column's left edge to the right column's right edge, gap included, plus one pixel when the margin is odd |
| Layout.LeftX | poster_core.py:170 | the left column ends at or before the centre line, and keeps at least a margin from the left edge when two columns and three margins fit in the width |
| Layout.RightX | poster_core.py:156-175 | the two columns mirror each other about x = 600, with a gap of 2·(margin // 2) between the left tile's right edge and the right tile's left edge |
| Layout.Processed | poster_core.py:119-129 | the scaled list has the input's length and order: entry k keeps the aspect ratio of image k (height rounded down, `KeepsAspect`). The TopGrid hero is 2·gridW + margin wide. Every grid tile is gridW wide, or unchanged when gridW is 0 (a falsy target); likewise the hero is unchanged when its width is 0. No height is negative |
| Layout.ScaleImages | poster_core.py:119-129 | the scaling loop builds exactly `Processed` |
| Layout.StackHeight | poster_core.py:131-147 | the real stack height, with no negative tile height or margin, is at least the height of every scaled tile |
| Layout.MeasureStack | poster_core.py:131-147 | the height loop returns the real stack height of the scaled tiles and the list of row heights (one per row, the taller member) |
| Layout.StartY | poster_core.py:150-152 | the top offset is the larger of the margin and trunc(empty space · ratio): it is at least the margin, above the ratio point less one, and either the margin or at most the ratio point. It is the margin when the stack leaves no room |
| Layout.StartYUnique | poster_core.py:150-152 | those bounds pin the offset: any value meeting them equals `StartY` |
| Layout.GridPlacements | poster_core.py:165-179 | the grid walk places one tile per grid image, and the first row starts at the given height |
| Layout.GridTiles | poster_core.py:166-176 | the grid walk places the grid's tiles in their order |
| Layout.Placements | poster_core.py:154-179 | one placement per scaled tile, carrying the tiles in order, with the first tile (the hero, or the first grid tile) at the top offset |
| Layout.Plan | poster_core.py:115-179 | the layout drawn for the input images has one placement per image; placement k keeps the aspect ratio of image k and starts at least a margin below the top edge |
| Layout.GridPlacementAt | poster_core.py:166-179 | grid tile j sits in column j % 2 (left, then right) of row j / 2. Its top is the grid top plus the heights of the rows above and one margin per row above |
| Layout.NextRowTop | poster_core.py:178 | each row starts exactly one row height plus one margin below the row above, so every tile ends at least a margin above the next row |
| Layout.GridWithinStack | poster_core.py:166-179 | every grid tile lies between the grid top and the grid top plus the grid height |
| Layout.PlacementAt | poster_core.py:154-179 | for any scaled list and top offset: the TopGrid hero is centred at the offset, and every grid tile is placed as `GridPlacementAt` says, below the hero and one margin |
| Layout.PlanPlacement | poster_core.py:115-179 | the layout drawn for the input images keeps their order. Each input is placed at the position `PlacementAt` gives, using its scaled size, the sizing pass's width and the top offset |
| Layout.PlacementsWithinStack | poster_core.py:154-179 | every placed tile lies between the top offset and the top offset plus the real stack height |
| Layout.PlanWithinStack | poster_core.py:115-179 | `PlacementsWithinStack` holds for the layout drawn for the input images |
| Layout.StackEndsInsideCanvas | poster_core.py:150-152 | a stack no taller than 1600 - 2·margin, started at its top offset, ends inside the canvas |
| Layout.RealHeightIsEstimate | poster_core.py:86-105 | when the first-pass width is kept, the real stack height of the scaled tiles equals the simulated one |
| Layout.FitsWhenEstimateFits | poster_core.py:107-110 | when the sizing estimate fits, every tile of the layout lies inside the canvas: at least a margin from the top and from both sides, and ending by the bottom edge |
| Layout.PlanCompositesAt | poster_core.py:159-176 | placement k becomes composites 2k (its shadow) and 2k+1 (the tile). So tiles are drawn in placement order, each directly after its own shadow |
| Layout.PlanComposites | poster_core.py:159-176 | drawing a list of placements gives two composites per placement; their order is `PlanCompositesAt` |
| Layout.DrawRow | poster_core.py:168-178 | one pass of the grid loop appends the composites of the row's one or two tiles, left then right, and the next row starts one row height and one margin lower |
| Layout.DrawGrid | poster_core.py:165-179 | the grid loop appends exactly the composites of the grid placements from the given height |
| Layout.DrawStack | poster_core.py:154-179 | the drawing phase appends the hero's composites (TopGrid), then the grid's |
| Layout.LayoutEngine | poster_core.py:115-179 | the layout pass appends to the canvas exactly the composites of `Plan` for these images, style and archetype |
| Poster.Route | poster_core.py:186-210 | fewer than 5 images are refused. Exactly 5 use `poster` with TopGrid. An even count from 6 on uses `dense` with SymGrid, and an odd count from 7 on uses `dense` with TopGrid. Exactly one of these applies to every count |
| Poster.RouteFullRows | poster_core.py:197-210 | every routed count has a valid style and a hero exactly when the count is odd, so the grid holds an even number of tiles, at least four: full rows only |
| Poster.PosterComposites | poster_core.py:197-210 | the composites of the routed layout, two per input image |
| Poster.LoadImages | poster_core.py:193 | loading succeeds exactly when every image decodes, and yields their sizes in order |
| Poster.GeneratePosterImage | poster_core.py:182-217 | the call succeeds exactly when there are at least 5 images, all decode, none has a zero side and the save succeeds. The saved canvas then holds the routed layout's composites. On failure nothing is saved |
| Poster.PosterShape | poster_core.py:197-210 | the saved poster holds two composites per image: for image k, its shadow and then its tile at its placement |

## Left out

- The desktop front end (`main.py`) is not part of this model: dialogs, widgets, folder listing, batching and file naming.
- Pixel work is not modelled: decoding and RGBA conversion, LANCZOS resampling, Gaussian blur, alpha blending and PNG encoding. A resize is its target size; a paste is a recorded composite.
- Decoding and saving are inputs to `Poster.GeneratePosterImage`: each image's decoded size or `None`, and whether the save succeeds. Decoded sizes are taken to be non-negative, as image sizes are.
- Floating point: `w / h`, `0.618` and `available / total` are taken as exact rationals. The source's float rounding could differ from the model by one pixel in rare cases.
- The catch-all exception handler is modelled for three failures only: a failed decode, a zero side (division by zero in the aspect ratio), and a failed save. Other errors that positive sizes can still reach are in the next line. In the source, a zero side raises only inside the sizing pass, after the canvas exists. The model checks the sizes first, which is observably the same: nothing is saved and the call fails. The printed messages are left out.
- The imaging library's own errors are not modelled: a resize to a zero or negative size (an image more than about 562 times wider than tall scales to height 0), and a shadow rectangle with reversed corners for tiles under 4 px. The model assumes those calls succeed.
- `Scaling.ResizeKeepingAspect`: the target-height branch is modelled, but the engine never takes it.
- Styles are limited to margins with 0 ≤ 3·margin < 1200 and ratios in [0, 1]. Both presets satisfy this, and it keeps the first-pass width positive.
- No fit is promised after a scale-down: the source does not keep one (see `Sizing.ScaledWidthMayStillOverflow`). `Layout.FitsWhenEstimateFits` covers the case where the first-pass width is kept.
