/**
 * Aspect-preserving resize of one image. Only the target size is modelled;
 * the resampling itself is not.
 */
module Scaling {
  import opened Config

  /**
   * Height of image s at width tw, as int(tw / (w / h)) with the quotient
   * taken exactly: tw * h / w, truncated toward zero. For a non-negative
   * width it is the largest height whose aspect ratio is not taller than s.
   */
  function ScaledHeight(s: Size, tw: int): (h: int)
    requires Positive(s)
    ensures tw >= 0 ==> 0 <= h && h * s.w <= tw * s.h < (h + 1) * s.w
    ensures tw <= 0 ==> h <= 0 && -h * s.w <= -tw * s.h < (-h + 1) * s.w
  {
    TruncDiv(tw * s.h, s.w)
  }

  /**
   * Resized image r keeps the aspect ratio of s with its height rounded
   * down: r.h is the largest height with r.h / r.w not above s.h / s.w.
   */
  predicate KeepsAspect(r: Size, s: Size) {
    r.h * s.w <= r.w * s.h < (r.h + 1) * s.w
  }

  /** Python truthiness of an optional integer target: absent and 0 are false. */
  predicate Truthy(t: Option<int>) {
    t.Some? && t.value != 0
  }

  /**
   * The size an image is resized to. A truthy target width wins; else a
   * truthy target height; else the image is returned unchanged. The other
   * side follows the original aspect ratio, truncated toward zero.
   */
  function ResizeKeepingAspect(s: Size, targetW: Option<int>, targetH: Option<int>): (r: Size)
    requires Positive(s)
    ensures Truthy(targetW) ==> r.w == targetW.value
    ensures Truthy(targetW) && targetW.value > 0 ==> 0 <= r.h && KeepsAspect(r, s)
    ensures Truthy(targetW) && targetW.value < 0 ==>
              r.h <= 0 && -r.h * s.w <= -r.w * s.h < (-r.h + 1) * s.w
    ensures !Truthy(targetW) && Truthy(targetH) ==> r.h == targetH.value
    ensures !Truthy(targetW) && Truthy(targetH) && targetH.value > 0 ==>
              0 <= r.w && r.w * s.h <= r.h * s.w < (r.w + 1) * s.h
    ensures !Truthy(targetW) && Truthy(targetH) && targetH.value < 0 ==>
              r.w <= 0 && -r.w * s.h <= -r.h * s.w < (-r.w + 1) * s.h
    ensures !Truthy(targetW) && !Truthy(targetH) ==> r == s && KeepsAspect(r, s)
  {
    if Truthy(targetW) then
      Size(targetW.value, ScaledHeight(s, targetW.value))
    else if Truthy(targetH) then
      Size(ScaledHeight(Size(s.h, s.w), targetH.value), targetH.value)
    else
      KeepsOwnAspect(s);
      s
  }

  lemma KeepsOwnAspect(s: Size)
    requires Positive(s)
    ensures KeepsAspect(s, s)
  {
    assert s.h * s.w == s.w * s.h;
    assert (s.h + 1) * s.w == s.h * s.w + s.w;
  }
}
