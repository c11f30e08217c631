/**
 * The CoreGraphics value types the tiler works with: points, sizes and
 * rectangles. Coordinates are exact reals rather than IEEE doubles.
 *
 * A rectangle stores a raw origin and a raw size, which may be negative.
 * Its accessors (MinX, MaxY, Width, ...) give the standardized values, as
 * CGRect's `minX`, `maxY`, `width`, ... do.
 */
module Geometry {

  datatype Point = Point(x: real, y: real)

  datatype Size = Size(width: real, height: real)

  datatype Rect = Rect(origin: Point, size: Size) {

    function MinX(): real {
      if size.width < 0.0 then origin.x + size.width else origin.x
    }

    function MaxX(): real {
      if size.width < 0.0 then origin.x else origin.x + size.width
    }

    function MinY(): real {
      if size.height < 0.0 then origin.y + size.height else origin.y
    }

    function MaxY(): real {
      if size.height < 0.0 then origin.y else origin.y + size.height
    }

    function Width(): real {
      if size.width < 0.0 then -size.width else size.width
    }

    function Height(): real {
      if size.height < 0.0 then -size.height else size.height
    }

    /** Half-open containment of a point, as CGRect's `contains(_:)`. */
    predicate Contains(p: Point) {
      MinX() <= p.x < MaxX() && MinY() <= p.y < MaxY()
    }
  }

  /** A rectangle whose stored size is non-negative, so it equals its standardized form. */
  predicate Standard(r: Rect) {
    r.size.width >= 0.0 && r.size.height >= 0.0
  }

  /** Largest whole number not above `x`, as Foundation's `floor`. */
  function Floor(x: real): (r: real)
    ensures r <= x < r + 1.0
    ensures Integral(r)
  {
    x.Floor as real
  }

  /** `x` has no fractional part. */
  predicate Integral(x: real) {
    x == x.Floor as real
  }
}
