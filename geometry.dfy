/**
  The geometry `_draw_shape` hands to the drawing library: a bounding box for
  circles and squares, three vertices for triangles, all derived from the
  drawn centre and the half-extent `size // 2`.
 */
module Geometry {
  import opened Shapes

  datatype Point = Point(x: int, y: int)

  /** A box `[left, top, right, bottom]`, as the drawing library takes it. */
  datatype Box = Box(left: int, top: int, right: int, bottom: int)

  /** What is filled and outlined for one shape. */
  datatype Outline =
    | Ellipse(box: Box)
    | Rectangle(box: Box)
    | Polygon(apex: Point, baseLeft: Point, baseRight: Point)

  /** Python's `size // 2`: floor division, which Dafny's `/` matches for a positive divisor. */
  function Half(size: int): (h: int)
    ensures 2 * h <= size < 2 * h + 2
  {
    size / 2
  }

  predicate Inside(p: Point, b: Box)
  {
    b.left <= p.x <= b.right && b.top <= p.y <= b.bottom
  }

  /** The box of half-extent `Half(size)` centred on `(x, y)`. */
  function BoxAround(x: int, y: int, size: int): (b: Box)
    ensures b.right - b.left == b.bottom - b.top == 2 * Half(size)
    ensures b.left + b.right == 2 * x && b.top + b.bottom == 2 * y
  {
    var h := Half(size);
    Box(x - h, y - h, x + h, y + h)
  }

  /**
    The outline of `s` drawn with the given offset: the drawn centre is
    `(s.x + offsetX, s.y + offsetY)`.
   */
  function OutlineOf(s: Shape, offsetX: int, offsetY: int): (o: Outline)
    ensures o.Ellipse? <==> s.kind == Circle
    ensures o.Rectangle? <==> s.kind == Square
    ensures o.Polygon? <==> s.kind == Triangle
    ensures !o.Polygon? ==> o.box == BoxAround(s.x + offsetX, s.y + offsetY, s.size)
  {
    var x := s.x + offsetX;
    var y := s.y + offsetY;
    var h := Half(s.size);
    match s.kind
    case Circle => Ellipse(Box(x - h, y - h, x + h, y + h))
    case Square => Rectangle(Box(x - h, y - h, x + h, y + h))
    case Triangle => Polygon(Point(x, y - h), Point(x - h, y + h), Point(x + h, y + h))
  }

  /**
    The triangle is isosceles with its apex centred over its base, its base
    at the bottom edge of the shape's box and its apex on the top edge, so
    every vertex lies in that box, and the box is the tightest one around
    the three vertices.
   */
  lemma TriangleInBox(s: Shape, offsetX: int, offsetY: int)
    requires s.kind == Triangle && s.size >= 0
    ensures var o := OutlineOf(s, offsetX, offsetY);
            var b := BoxAround(s.x + offsetX, s.y + offsetY, s.size);
            && Inside(o.apex, b) && Inside(o.baseLeft, b) && Inside(o.baseRight, b)
            && o.apex.y == b.top && o.baseLeft.y == o.baseRight.y == b.bottom
            && o.baseLeft.x == b.left && o.baseRight.x == b.right
            && 2 * o.apex.x == o.baseLeft.x + o.baseRight.x
  {
  }

  /** Moving the centre by an offset moves every coordinate of the outline by that offset. */
  lemma OffsetTranslates(s: Shape, offsetX: int, offsetY: int)
    ensures OutlineOf(s, offsetX, offsetY) == OutlineOf(MoveTo(s, s.x + offsetX, s.y + offsetY), 0, 0)
  {
  }
}
