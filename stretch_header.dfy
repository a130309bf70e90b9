/**
 * The stretch header: an image view behind the first container that grows
 * upward while the content is pulled down past its top.
 */
module StretchHeader {
  import opened Geometry

  /**
   * `setupStretchHeader`: the baseline frame is the configured custom frame,
   * or the first container's bounds when the custom frame is empty.
   */
  function Baseline(custom: Rect, attach: Rect): (r: Rect)
    ensures !custom.IsEmpty() ==> r == custom
    ensures custom.IsEmpty() ==>
      r.x == 0.0 && r.y == 0.0 && r.width == attach.width && r.height == attach.height
  {
    if custom.IsEmpty() then attach.Bounds() else custom
  }

  /**
   * `updateStretchHeader`: the header frame for overlay offset `offset`. Its
   * bottom edge stays at the baseline height, its top edge follows an
   * overscroll (a negative offset) and stays at 0 otherwise, and its width is
   * the baseline width.
   */
  function StretchedFrame(baseline: Rect, offset: real): (r: Rect)
    ensures r.x == 0.0 && r.width == baseline.width
    ensures r.y == Min(offset, 0.0)
    ensures r.MaxY() == baseline.height
  {
    if offset >= 0.0 then
      Rect(0.0, 0.0, baseline.width, baseline.height)
    else
      Rect(0.0, offset, baseline.width, baseline.height - offset)
  }

  /** Pulling further down never makes the header shorter. */
  lemma StretchGrowsWithOverscroll(baseline: Rect, deeper: real, shallower: real)
    requires deeper <= shallower
    ensures StretchedFrame(baseline, deeper).height >= StretchedFrame(baseline, shallower).height
    ensures StretchedFrame(baseline, deeper).height == baseline.height - Min(deeper, 0.0)
  {
  }

  /** Without overscroll a baseline at the origin is restored exactly. */
  lemma StretchAtRest(baseline: Rect, offset: real)
    requires offset >= 0.0 && baseline.x == 0.0 && baseline.y == 0.0
    ensures StretchedFrame(baseline, offset) == baseline
  {
  }
}
