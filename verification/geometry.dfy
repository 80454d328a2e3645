/** Points of the plane with exact real coordinates. */
module Geometry {

  datatype Point = Point(x: real, y: real)

  const Origin: Point := Point(0.0, 0.0)

  /** `p` moved by the offset (dx, dy): how a relative coordinate pair is resolved. */
  function Offset(p: Point, dx: real, dy: real): Point
  {
    Point(p.x + dx, p.y + dy)
  }

  function Midpoint(p: Point, q: Point): Point
  {
    Point((p.x + q.x) / 2.0, (p.y + q.y) / 2.0)
  }

  /** The point reflection of `p` through `center` (SVG 1.1 sections 8.3.6 and 8.3.7):
      `center` lies halfway between `p` and the result. */
  function Reflect(p: Point, center: Point): (r: Point)
    ensures Midpoint(p, r) == center
  {
    Point(2.0 * center.x - p.x, 2.0 * center.y - p.y)
  }
}
