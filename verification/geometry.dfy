/**
 * Normalised points and rectangles, as CoreGraphics' CGPoint and CGRect
 * present them to the app. Coordinates are `real`: floating-point rounding
 * is not part of the model.
 */
module Geometry {

  datatype Point = Point(x: real, y: real)

  /** A rectangle as stored: an origin and a size whose components may be negative. */
  datatype Rect = Rect(x: real, y: real, width: real, height: real)

  function Min(a: real, b: real): real { if a <= b then a else b }
  function Max(a: real, b: real): real { if a <= b then b else a }

  /** `max(lo, min(hi, v))`, the clamp the source writes out by hand. */
  function Clamp(lo: real, hi: real, v: real): (r: real)
    requires lo <= hi
    ensures lo <= r <= hi
    ensures lo <= v <= hi ==> r == v
    ensures v < lo ==> r == lo
    ensures hi < v ==> r == hi
  {
    Max(lo, Min(hi, v))
  }

  // CGRect's derived properties work on the standardised rectangle, so a
  // negative width or height gives the same edges as its positive mirror.

  function MinX(r: Rect): real { Min(r.x, r.x + r.width) }
  function MaxX(r: Rect): real { Max(r.x, r.x + r.width) }
  function MinY(r: Rect): real { Min(r.y, r.y + r.height) }
  function MaxY(r: Rect): real { Max(r.y, r.y + r.height) }
  function MidX(r: Rect): real { r.x + r.width / 2.0 }
  function MidY(r: Rect): real { r.y + r.height / 2.0 }

  /** CGRect.width: always the absolute value of the stored width. */
  function Width(r: Rect): (w: real)
    ensures w >= 0.0 && MaxX(r) - MinX(r) == w
  {
    if r.width < 0.0 then -r.width else r.width
  }

  /** CGRect.height: always the absolute value of the stored height. */
  function Height(r: Rect): (h: real)
    ensures h >= 0.0 && MaxY(r) - MinY(r) == h
  {
    if r.height < 0.0 then -r.height else r.height
  }

  /** The rectangle lies inside the normalised unit square [0,1] x [0,1]. */
  predicate InUnitSquare(r: Rect) {
    0.0 <= MinX(r) && MaxX(r) <= 1.0 && 0.0 <= MinY(r) && MaxY(r) <= 1.0
  }
}
