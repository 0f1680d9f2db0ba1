/**
 * The public entry point: check the image count, decode the images, pick a
 * style and a layout archetype from the count, lay the poster out on a fresh
 * canvas and save it. Decoding and saving are not modelled: the decoded
 * sizes (None for a file that fails to open) and the outcome of the save are
 * inputs.
 */
module Poster {
  import opened Config
  import opened Shadow
  import opened Layout

  /** The style and archetype chosen for a poster. */
  datatype Routing = Routing(style: Style, layout: LayoutType)

  /**
   * Routing by image count: fewer than five is refused; exactly five uses
   * the poster style with a hero; from six on the dense style, a pure grid
   * for an even count and a hero above a grid for an odd one.
   */
  function Route(count: int): (r: Option<Routing>)
    ensures r.None? <==> count < MinImages
    ensures count == MinImages ==> r == Some(Routing(PosterStyle, TopGrid))
    ensures count > MinImages && count % 2 == 0 ==> r == Some(Routing(DenseStyle, SymGrid))
    ensures count > MinImages && count % 2 == 1 ==> r == Some(Routing(DenseStyle, TopGrid))
  {
    if count < MinImages then None
    else if count == MinImages then Some(Routing(PosterStyle, TopGrid))
    else if count % 2 == 0 then Some(Routing(DenseStyle, SymGrid))
    else Some(Routing(DenseStyle, TopGrid))
  }

  /**
   * Every routed poster can be laid out and its grid is made of full rows:
   * the style is valid, the hero is present exactly when the count is odd,
   * and the grid holds an even number of images, at least four (two rows),
   * so no row has a lone tile.
   */
  lemma RouteFullRows(count: int)
    requires count >= MinImages
    ensures Route(count).Some?
    ensures var r := Route(count).value;
            var gridCount := count - (if r.layout == TopGrid then 1 else 0);
            && ValidStyle(r.style)
            && (r.layout == TopGrid <==> count % 2 == 1)
            && gridCount % 2 == 0 && gridCount >= 4
  {
  }

  /** Every decoding succeeded. */
  predicate AllDecoded(decoded: seq<Option<Size>>) {
    forall i :: 0 <= i < |decoded| ==> decoded[i].Some?
  }

  /** The decoded sizes, in input order. */
  function Sizes(decoded: seq<Option<Size>>): (images: seq<Size>)
    requires AllDecoded(decoded)
    ensures |images| == |decoded|
    ensures forall i :: 0 <= i < |decoded| ==> decoded[i] == Some(images[i])
  {
    seq(|decoded|, i requires 0 <= i < |decoded| => decoded[i].value)
  }

  /** The composites of the poster drawn for these images, when the count is routed. */
  function PosterComposites(images: seq<Size>): (c: seq<Composite>)
    requires |images| >= MinImages && AllPositive(images)
    ensures |c| == 2 * |images|
  {
    RouteFullRows(|images|);
    var r := Route(|images|).value;
    PlanComposites(Plan(images, r.style, r.layout))
  }

  /** Open every image in order; the first that fails to decode aborts the load. */
  method LoadImages(decoded: seq<Option<Size>>) returns (images: Option<seq<Size>>)
    ensures images.Some? <==> AllDecoded(decoded)
    ensures images.Some? ==> AllDecoded(decoded) && images.value == Sizes(decoded)
  {
    var loaded: seq<Size> := [];
    var i := 0;
    while i < |decoded|
      invariant 0 <= i <= |decoded|
      invariant forall j :: 0 <= j < i ==> decoded[j].Some?
      invariant |loaded| == i && forall j :: 0 <= j < i ==> decoded[j] == Some(loaded[j])
    {
      if decoded[i].None? {
        return None;
      }
      loaded := loaded + [decoded[i].value];
      i := i + 1;
    }
    assert loaded == Sizes(decoded);
    return Some(loaded);
  }

  /**
   * Generate a poster. It succeeds exactly when there are at least five
   * images, all decode, none has a zero side (the aspect ratio would divide
   * by zero) and the save succeeds; the saved canvas then holds the routed
   * layout's composites. On failure nothing is saved.
   */
  method GeneratePosterImage(decoded: seq<Option<Size>>, saveOk: bool)
    returns (ok: bool, saved: Option<seq<Composite>>)
    requires forall i :: 0 <= i < |decoded| && decoded[i].Some? ==> decoded[i].value.w >= 0 && decoded[i].value.h >= 0
    ensures ok <==> |decoded| >= MinImages && AllDecoded(decoded) && AllPositive(Sizes(decoded)) && saveOk
    ensures ok ==> |decoded| >= MinImages && AllDecoded(decoded) && AllPositive(Sizes(decoded))
                   && saved == Some(PosterComposites(Sizes(decoded)))
    ensures !ok ==> saved == None
  {
    var count := |decoded|;
    if count < MinImages {
      return false, None;
    }

    var loaded := LoadImages(decoded);
    if loaded.None? {
      return false, None;
    }
    var images := loaded.value;
    var canvas := new Canvas();

    // A zero side makes the aspect-ratio division in the sizing pass fail.
    if !AllPositive(images) {
      return false, None;
    }

    RouteFullRows(count);
    if count == MinImages {
      LayoutEngine(canvas, images, PosterStyle, TopGrid);
    } else {
      var style := DenseStyle;
      var mode := if count % 2 == 0 then SymGrid else TopGrid;
      LayoutEngine(canvas, images, style, mode);
    }
    assert canvas.composites == PosterComposites(images);

    if !saveOk {
      return false, None;
    }
    return true, Some(canvas.composites);
  }

  /** The saved poster holds two composites per image, in plan order, each tile directly after its own shadow. */
  lemma PosterShape(images: seq<Size>, k: int)
    requires |images| >= MinImages && AllPositive(images)
    requires 0 <= k < |images|
    ensures var r := Route(|images|).value;
            var p := Plan(images, r.style, r.layout)[k];
            && |PosterComposites(images)| == 2 * |images|
            && PosterComposites(images)[2 * k].layer == ShadowLayer(GenerateShadow(p.tile))
            && PosterComposites(images)[2 * k + 1] == Composite(TileLayer(p.tile), p.x, p.y)
  {
    RouteFullRows(|images|);
    var r := Route(|images|).value;
    PlanPlacement(images, r.style, r.layout, k);
    PlanCompositesAt(Plan(images, r.style, r.layout), k);
  }
}
