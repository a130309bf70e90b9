/**
 * The CoreGraphics values the scroll coordinator works with. CGFloat arithmetic
 * here is only sums, differences, comparisons and max, so it is modelled by
 * `real`. Widths and heights are standardized (never negative).
 */
module Geometry {

  /** A width or a height. */
  type Length = r: real | 0.0 <= r

  /** CGPoint */
  datatype Point = Point(x: real, y: real)

  /** CGPoint.zero */
  const Origin := Point(0.0, 0.0)

  /** CGSize */
  datatype Size = Size(width: Length, height: Length)

  /** CGRect */
  datatype Rect = Rect(x: real, y: real, width: Length, height: Length) {

    /** CGRect.maxY */
    function MaxY(): real {
      y + height
    }

    /** CGRect.isEmpty: no area at all. */
    predicate IsEmpty() {
      width == 0.0 || height == 0.0
    }

    /** UIView.bounds of a view whose frame is this rectangle. */
    function Bounds(): Rect {
      Rect(0.0, 0.0, width, height)
    }
  }

  /** CGRect.zero */
  const ZeroRect := Rect(0.0, 0.0, 0.0, 0.0)

  /** Swift's max(_:_:) */
  function Max(a: real, b: real): (r: real)
    ensures r >= a && r >= b
    ensures r == a || r == b
  {
    if a < b then b else a
  }

  /** Swift's min(_:_:) */
  function Min(a: real, b: real): (r: real)
    ensures r <= a && r <= b
    ensures r == a || r == b
  {
    if b < a then b else a
  }
}
