/** Integer screen geometry of the map screen: points, rectangles and the
    two integer helpers (Math.max, Math.min) the layout code uses. */
module Geometry {

  /** A mouse position in component pixels. */
  datatype Point = Point(x: int, y: int)

  /** An axis-aligned rectangle as java.awt.Rectangle holds it; a negative
      width or height is representable (a window narrower than the chrome
      produces such rectangles). */
  datatype Rect = Rect(x: int, y: int, width: int, height: int)

  /** A freshly allocated java.awt.Rectangle. */
  const EmptyRect: Rect := Rect(0, 0, 0, 0)

  /** Math.max on ints. */
  function Max(a: int, b: int): (r: int)
    ensures r >= a && r >= b
    ensures r == a || r == b
  {
    if a >= b then a else b
  }

  /** Math.min on ints. */
  function Min(a: int, b: int): (r: int)
    ensures r <= a && r <= b
    ensures r == a || r == b
  {
    if a <= b then a else b
  }

  /** Rectangle.contains(Point): the left and top edges are inside, the right
      and bottom edges outside, and a rectangle with a negative side contains
      nothing. */
  function Contains(r: Rect, p: Point): (inside: bool)
    ensures inside ==> r.width > 0 && r.height > 0
    ensures inside <==> r.x <= p.x < r.x + r.width && r.y <= p.y < r.y + r.height
  {
    r.width >= 0 && r.height >= 0 &&
    r.x <= p.x < r.x + r.width &&
    r.y <= p.y < r.y + r.height
  }

  /** The same rectangle moved by (dx, dy). */
  function Shifted(r: Rect, dx: int, dy: int): Rect
  {
    Rect(r.x + dx, r.y + dy, r.width, r.height)
  }
}
