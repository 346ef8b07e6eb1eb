/**
  Plane geometry used by the ticket paths: points, Core Graphics style
  rectangles (with their standardised edges), axis-aligned boxes and the
  reflection about a rectangle's vertical midline.

  Coordinates are exact reals; the y axis points down, as in SwiftUI.
 */
module Geometry {

  datatype Point = Point(x: real, y: real)

  /** A rectangle as the caller stores it: an origin and a size whose
      components may be negative.  The edge accessors standardise it,
      as CGRect's minX, maxX, minY, maxY and height do. */
  datatype Rect = Rect(x: real, y: real, width: real, height: real) {

    /** The smaller of the two x edges. */
    function MinX(): (r: real)
      ensures r <= x && r <= x + width
      ensures r == x || r == x + width
    {
      if width < 0.0 then x + width else x
    }

    /** The larger of the two x edges. */
    function MaxX(): (r: real)
      ensures r >= x && r >= x + width
      ensures r == x || r == x + width
    {
      if width < 0.0 then x else x + width
    }

    /** The smaller of the two y edges. */
    function MinY(): (r: real)
      ensures r <= y && r <= y + height
      ensures r == y || r == y + height
    {
      if height < 0.0 then y + height else y
    }

    /** The larger of the two y edges. */
    function MaxY(): (r: real)
      ensures r >= y && r >= y + height
      ensures r == y || r == y + height
    {
      if height < 0.0 then y else y + height
    }

    /** The standardised (never negative) width. */
    function Width(): (w: real)
      ensures w >= 0.0 && w == MaxX() - MinX()
      ensures w == width || w == -width
    {
      if width < 0.0 then -width else width
    }

    /** The standardised (never negative) height: CGRect.height. */
    function Height(): (h: real)
      ensures h >= 0.0 && h == MaxY() - MinY()
      ensures h == height || h == -height
    {
      if height < 0.0 then -height else height
    }

    /** The box the rectangle covers. */
    function Bounds(): Box
    {
      Box(MinX(), MaxX(), MinY(), MaxY())
    }
  }

  /** An axis-aligned box given by its four edges. */
  datatype Box = Box(minX: real, maxX: real, minY: real, maxY: real) {

    predicate Contains(p: Point)
    {
      minX <= p.x <= maxX && minY <= p.y <= maxY
    }

    /** The smallest box covering both boxes. */
    function Union(other: Box): (u: Box)
      ensures u.minX <= minX && u.minX <= other.minX
      ensures u.maxX >= maxX && u.maxX >= other.maxX
      ensures u.minY <= minY && u.minY <= other.minY
      ensures u.maxY >= maxY && u.maxY >= other.maxY
      ensures u.minX == minX || u.minX == other.minX
      ensures u.maxX == maxX || u.maxX == other.maxX
      ensures u.minY == minY || u.minY == other.minY
      ensures u.maxY == maxY || u.maxY == other.maxY
    {
      Box(Min(minX, other.minX), Max(maxX, other.maxX),
          Min(minY, other.minY), Max(maxY, other.maxY))
    }

    function Width(): real { maxX - minX }

    function Height(): real { maxY - minY }
  }

  /** The degenerate box around a single point. */
  function PointBox(p: Point): (b: Box)
    ensures b.Contains(p) && b.Width() == 0.0 && b.Height() == 0.0
  {
    Box(p.x, p.x, p.y, p.y)
  }

  function Min(a: real, b: real): real { if a <= b then a else b }

  function Max(a: real, b: real): real { if a <= b then b else a }

  /** Reflection of a point about the vertical midline of a rectangle. */
  function Reflect(p: Point, rect: Rect): (q: Point)
    ensures q.y == p.y
    ensures q.x - rect.MinX() == rect.MaxX() - p.x
  {
    Point(rect.MinX() + rect.MaxX() - p.x, p.y)
  }

  /** Reflecting twice gives the point back. */
  lemma ReflectInvolution(p: Point, rect: Rect)
    ensures Reflect(Reflect(p, rect), rect) == p
  {
  }
}
