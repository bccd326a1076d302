/** Plain numeric values shared by every entity: 2-D vectors, axis-aligned
    boxes and the canvas extent, plus the mutable `{x, y}` object that the
    game's classes hold (and sometimes share) by reference. */
module Geometry {

  /** A `{x, y}` pair taken as a value. */
  datatype Vec = Vec(x: real, y: real)

  const Zero := Vec(0.0, 0.0)

  function Add(a: Vec, b: Vec): Vec
  {
    Vec(a.x + b.x, a.y + b.y)
  }

  function Scale(a: Vec, k: real): Vec
  {
    Vec(a.x * k, a.y * k)
  }

  function Abs(r: real): real
  {
    if r < 0.0 then -r else r
  }

  /** An axis-aligned rectangle given by its top-left corner and its size. */
  datatype Box = Box(x: real, y: real, width: real, height: real)

  /** The closed-rectangle point test: edges and corners count as inside. */
  predicate InClosedBox(b: Box, px: real, py: real)
  {
    px >= b.x && px <= b.x + b.width &&
    py >= b.y && py <= b.y + b.height
  }

  /** All four corners of a box of non-negative size are inside it, and
      nothing left of or above it is. */
  lemma ClosedBoxCorners(b: Box, px: real, py: real)
    requires b.width >= 0.0 && b.height >= 0.0
    ensures InClosedBox(b, b.x, b.y) && InClosedBox(b, b.x + b.width, b.y)
    ensures InClosedBox(b, b.x, b.y + b.height) && InClosedBox(b, b.x + b.width, b.y + b.height)
    ensures px < b.x || py < b.y ==> !InClosedBox(b, px, py)
  {
  }

  /** The drawing surface; only its size matters to the game logic. */
  datatype Canvas = Canvas(width: real, height: real)

  /** The mutable `{x, y}` object of the source. Two entities holding the
      same Vector2 see each other's writes. */
  class Vector2 {
    var x: real
    var y: real

    constructor (x0: real, y0: real)
      ensures x == x0 && y == y0
    {
      x, y := x0, y0;
    }

    function Value(): Vec
      reads this
    {
      Vec(x, y)
    }
  }
}
