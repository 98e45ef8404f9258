/** Plan geometry of the building shell: points, the midpoint of a wall's base
    line, and the closed rectangular footprint the walls are laid along.
    Coordinates are exact reals (the host's XYZ in its internal length unit). */
module Geometry {

  /** A model-space point or vector (the host's XYZ). */
  datatype Point = Point(x: real, y: real, z: real)

  const Origin: Point := Point(0.0, 0.0, 0.0)

  function Add(p: Point, q: Point): Point {
    Point(p.x + q.x, p.y + q.y, p.z + q.z)
  }

  function Sub(p: Point, q: Point): Point {
    Point(p.x - q.x, p.y - q.y, p.z - q.z)
  }

  /** `(point1 + point2) / 2`: the point halfway along the segment point1-point2,
      i.e. the step from point1 to it equals the step from it to point2. */
  function Midpoint(p1: Point, p2: Point): (m: Point)
    ensures Sub(m, p1) == Sub(p2, m)
  {
    Point((p1.x + p2.x) / 2.0, (p1.y + p2.y) / 2.0, (p1.z + p2.z) / 2.0)
  }

  /** The converse of Midpoint's postcondition: a point that splits the
      segment into two equal steps is the midpoint. */
  lemma MidpointUnique(p1: Point, p2: Point, m: Point)
    requires Sub(m, p1) == Sub(p2, m)
    ensures m == Midpoint(p1, p2)
  {
  }

  /** The five footprint points: half-extents dx = width / 2 and dy = depth / 2,
      the rectangle centred at the origin, walked from (-dx, -dy) along +x,
      then +y, then -x, then -y back to the start, in the plane z = 0. */
  function Footprint(width: real, depth: real): (pts: seq<Point>)
    ensures |pts| == 5 && pts[4] == pts[0]
    ensures forall i :: 0 <= i < 5 ==> pts[i].z == 0.0
    ensures pts[0] == Point(-width / 2.0, -depth / 2.0, 0.0)
    ensures Sub(pts[1], pts[0]) == Point(width, 0.0, 0.0)
    ensures Sub(pts[2], pts[1]) == Point(0.0, depth, 0.0)
    ensures Sub(pts[3], pts[2]) == Point(-width, 0.0, 0.0)
    ensures Sub(pts[4], pts[3]) == Point(0.0, -depth, 0.0)
    ensures Add(Add(pts[0], pts[1]), Add(pts[2], pts[3])) == Origin
  {
    var dx := width / 2.0;
    var dy := depth / 2.0;
    [Point(-dx, -dy, 0.0), Point(dx, -dy, 0.0), Point(dx, dy, 0.0), Point(-dx, dy, 0.0), Point(-dx, -dy, 0.0)]
  }

  /** Every footprint point is a corner (+-dx, +-dy), and for a positive width
      and depth the four corners are pairwise distinct. */
  lemma FootprintCorners(width: real, depth: real)
    ensures var pts := Footprint(width, depth);
      forall i :: 0 <= i < 5 ==>
        (pts[i].x == width / 2.0 || pts[i].x == -width / 2.0) &&
        (pts[i].y == depth / 2.0 || pts[i].y == -depth / 2.0)
    ensures width > 0.0 && depth > 0.0 ==>
      var pts := Footprint(width, depth);
      forall i, j :: 0 <= i < j < 4 ==> pts[i] != pts[j]
  {
    var dx := width / 2.0;
    var dy := depth / 2.0;
    var pts := Footprint(width, depth);
    assert pts == [Point(-dx, -dy, 0.0), Point(dx, -dy, 0.0), Point(dx, dy, 0.0), Point(-dx, dy, 0.0), Point(-dx, -dy, 0.0)];
    if width > 0.0 && depth > 0.0 {
      assert -dx < dx && -dy < dy;
    }
  }

  /** z-component of the cross product of two plan points. */
  function Cross(p: Point, q: Point): real {
    p.x * q.y - q.x * p.y
  }

  /** Twice the signed area enclosed by a point loop (the shoelace sum over
      consecutive points); positive for a counter-clockwise loop. */
  function TwiceSignedArea(pts: seq<Point>): real
    decreases |pts|
  {
    if |pts| < 2 then 0.0 else Cross(pts[0], pts[1]) + TwiceSignedArea(pts[1..])
  }

  /** The footprint loop encloses exactly width * depth, counter-clockwise
      when width and depth are positive. */
  lemma {:induction false} FootprintArea(width: real, depth: real)
    ensures TwiceSignedArea(Footprint(width, depth)) == 2.0 * width * depth
    ensures width > 0.0 && depth > 0.0 ==> TwiceSignedArea(Footprint(width, depth)) > 0.0
  {
    var pts := Footprint(width, depth);
    var dx := width / 2.0;
    var dy := depth / 2.0;
    assert TwiceSignedArea(pts[4..]) == 0.0;
    assert Cross(pts[0], pts[1]) == 2.0 * dx * dy;
    assert Cross(pts[1], pts[2]) == 2.0 * dx * dy;
    assert Cross(pts[2], pts[3]) == 2.0 * dx * dy;
    assert Cross(pts[3], pts[4]) == 2.0 * dx * dy;
    assert pts[3..][1..] == pts[4..];
    assert TwiceSignedArea(pts[3..]) == 2.0 * dx * dy;
    assert pts[2..][1..] == pts[3..];
    assert TwiceSignedArea(pts[2..]) == 4.0 * dx * dy;
    assert pts[1..][1..] == pts[2..];
    assert TwiceSignedArea(pts[1..]) == 6.0 * dx * dy;
    assert TwiceSignedArea(pts) == 8.0 * dx * dy;
    if width > 0.0 && depth > 0.0 {
      assert width * depth > 0.0;
    }
  }
}
