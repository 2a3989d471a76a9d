/** Integer pixel positions and the symmetric point batches the circle
    rasterizers hand to the renderer's draw_point. */
module Geometry {

  datatype Point = Point(x: int, y: int)

  /** The pixel at offset (dx, dy) from the centre c. */
  function At(c: Point, dx: int, dy: int): Point {
    Point(c.x + dx, c.y + dy)
  }

  /** Squared distance between two pixels. */
  function SqDist(c: Point, q: Point): int {
    (q.x - c.x) * (q.x - c.x) + (q.y - c.y) * (q.y - c.y)
  }

  /** Reflection of q in the vertical line through c. */
  function MirrorX(c: Point, q: Point): Point {
    Point(2 * c.x - q.x, q.y)
  }

  /** Reflection of q in the horizontal line through c. */
  function MirrorY(c: Point, q: Point): Point {
    Point(q.x, 2 * c.y - q.y)
  }

  /** Reflection of q in the diagonal through c (the coordinate swap). */
  function Transpose(c: Point, q: Point): Point {
    Point(c.x + (q.y - c.y), c.y + (q.x - c.x))
  }

  /** Quarter turn of q about c: offset (a, b) becomes (-b, a). */
  function Rotate(c: Point, q: Point): Point {
    Point(c.x - (q.y - c.y), c.y + (q.x - c.x))
  }

  /** The eight images of offset (x, y) about c, in the order the midpoint
      rasterizers list them: the pixel (x, -y), its reflections in the
      horizontal line, the vertical line and both, and then the coordinate
      swaps of those four taken as 3, 1, 2, 0. */
  function Octants(c: Point, x: int, y: int): (b: seq<Point>)
    ensures |b| == 8
    ensures b[0] == At(c, x, -y)
    ensures b[1] == MirrorY(c, b[0]) && b[2] == MirrorX(c, b[0]) && b[3] == MirrorX(c, b[1])
    ensures b[4] == Transpose(c, b[3]) && b[5] == Transpose(c, b[1])
    ensures b[6] == Transpose(c, b[2]) && b[7] == Transpose(c, b[0])
  {
    [ At(c, x, -y), At(c, x, y), At(c, -x, -y), At(c, -x, y),
      At(c, y, -x), At(c, y, x), At(c, -y, -x), At(c, -y, x) ]
  }

  lemma SqDistAt(c: Point, dx: int, dy: int)
    ensures SqDist(c, At(c, dx, dy)) == dx * dx + dy * dy
  {
  }

  /** An octant batch is closed under both axis reflections and the
      coordinate swap about its centre. */
  lemma OctantsSymmetric(c: Point, x: int, y: int)
    ensures forall q :: q in Octants(c, x, y) ==>
      MirrorX(c, q) in Octants(c, x, y) && MirrorY(c, q) in Octants(c, x, y) && Transpose(c, q) in Octants(c, x, y)
  {
    var b := Octants(c, x, y);
    forall q | q in b
      ensures MirrorX(c, q) in b && MirrorY(c, q) in b && Transpose(c, q) in b
    {
      var k :| 0 <= k < 8 && b[k] == q;
      if k == 0 {
        assert MirrorX(c, q) == b[2] && MirrorY(c, q) == b[1] && Transpose(c, q) == b[7];
      } else if k == 1 {
        assert MirrorX(c, q) == b[3] && MirrorY(c, q) == b[0] && Transpose(c, q) == b[5];
      } else if k == 2 {
        assert MirrorX(c, q) == b[0] && MirrorY(c, q) == b[3] && Transpose(c, q) == b[6];
      } else if k == 3 {
        assert MirrorX(c, q) == b[1] && MirrorY(c, q) == b[2] && Transpose(c, q) == b[4];
      } else if k == 4 {
        assert MirrorX(c, q) == b[6] && MirrorY(c, q) == b[5] && Transpose(c, q) == b[3];
      } else if k == 5 {
        assert MirrorX(c, q) == b[7] && MirrorY(c, q) == b[4] && Transpose(c, q) == b[1];
      } else if k == 6 {
        assert MirrorX(c, q) == b[4] && MirrorY(c, q) == b[7] && Transpose(c, q) == b[2];
      } else {
        assert MirrorX(c, q) == b[5] && MirrorY(c, q) == b[6] && Transpose(c, q) == b[0];
      }
    }
  }

  /** All eight pixels of an octant batch lie on one circle about the centre. */
  lemma OctantsConcentric(c: Point, x: int, y: int)
    ensures forall q :: q in Octants(c, x, y) ==> SqDist(c, q) == x * x + y * y
  {
    var b := Octants(c, x, y);
    assert (-x) * (-x) == x * x && (-y) * (-y) == y * y;
    forall q | q in b
      ensures SqDist(c, q) == x * x + y * y
    {
      var k :| 0 <= k < 8 && b[k] == q;
      var dx, dy := q.x - c.x, q.y - c.y;
      assert (dx == x || dx == -x || dx == y || dx == -y);
      SqDistAt(c, dx, dy);
    }
  }

  /** The four images of offset (dx, dy) about c under quarter turns, in the
      order the anti-aliased Bresenham circle lists its quadrants: each entry
      is the previous one turned by 90 degrees, and four turns close the cycle. */
  function Orbit(c: Point, dx: int, dy: int): (b: seq<Point>)
    ensures |b| == 4
    ensures b[0] == At(c, dx, dy)
    ensures forall k :: 0 <= k < 3 ==> b[k + 1] == Rotate(c, b[k])
    ensures Rotate(c, b[3]) == b[0]
  {
    [ At(c, dx, dy), At(c, -dy, dx), At(c, -dx, -dy), At(c, dy, -dx) ]
  }
}
