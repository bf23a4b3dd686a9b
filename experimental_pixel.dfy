/** TRestDetectorExperimentalReadoutPixel: a pixel given by the convex hull of
    its vertices (found by Graham's scan), with the centre and the radius of a
    circle that holds it, and the geometric helpers of the readout namespace. */
module ExperimentalPixels {
  import opened Geometry

  /** The z component of (B - A) x (C - A): positive when A, B, C turn left. */
  function CrossProduct(a: Vec2, b: Vec2, c: Vec2): real {
    (b.x - a.x) * (c.y - a.y) - (b.y - a.y) * (c.x - a.x)
  }

  function SquaredDistance(a: Vec2, b: Vec2): (d: real)
    ensures d >= 0.0
  {
    var dx, dy := b.x - a.x, b.y - a.y;
    assert dx * dx >= 0.0 && dy * dy >= 0.0;
    dx * dx + dy * dy
  }

  /** Swapping the last two points turns a left turn into a right turn. */
  lemma CrossAntisymmetric(a: Vec2, b: Vec2, c: Vec2)
    ensures CrossProduct(a, c, b) == -CrossProduct(a, b, c)
  {
  }

  /** The turn of a triangle does not depend on which corner comes first. */
  lemma CrossCyclic(a: Vec2, b: Vec2, c: Vec2)
    ensures CrossProduct(b, c, a) == CrossProduct(a, b, c)
  {
  }

  /** The order std::sort is given: by polar angle around the anchor, and by
      distance to the anchor when the angles are equal. */
  predicate ComparePoints(a: Vec2, b: Vec2, anchor: Vec2) {
    var cross := CrossProduct(anchor, a, b);
    if cross == 0.0 then SquaredDistance(anchor, a) < SquaredDistance(anchor, b) else cross > 0.0
  }

  /** The order is strict: no point comes before itself, and of two points at
      most one comes first. */
  lemma ComparePointsStrict(a: Vec2, b: Vec2, anchor: Vec2)
    ensures !ComparePoints(a, a, anchor)
    ensures ComparePoints(a, b, anchor) ==> !ComparePoints(b, a, anchor)
  {
    CrossAntisymmetric(anchor, a, b);
  }

  /** The anchor of the scan: the lowest point, the leftmost of the lowest,
      with the first of equal points kept. */
  function Anchor(points: seq<Vec2>): (r: Vec2)
    requires |points| > 0
  {
    if |points| == 1 then points[0]
    else
      var best := Anchor(points[..|points| - 1]);
      var p := points[|points| - 1];
      if p.y < best.y || (p.y == best.y && p.x < best.x) then p else best
  }

  /** The anchor is one of the points and no point is below it or level with
      it and to its left. */
  lemma {:induction false} AnchorIsLowest(points: seq<Vec2>)
    requires |points| > 0
    ensures Anchor(points) in points
    ensures forall i :: 0 <= i < |points| ==>
              Anchor(points).y < points[i].y || (Anchor(points).y == points[i].y && Anchor(points).x <= points[i].x)
  {
    if |points| > 1 {
      var init := points[..|points| - 1];
      AnchorIsLowest(init);
      assert forall i :: 0 <= i < |init| ==> points[i] == init[i];
      assert points == init + [points[|points| - 1]];
    }
  }

  /** The loop choosing the anchor, starting from the first point. */
  method FindAnchor(points: seq<Vec2>) returns (anchor: Vec2)
    requires |points| > 0
    ensures anchor == Anchor(points)
  {
    anchor := points[0];
    var i := 0;
    while i < |points|
      invariant 0 <= i <= |points|
      invariant anchor == Anchor(points[..if i == 0 then 1 else i])
    {
      var point := points[i];
      if i > 0 {
        assert points[..i + 1][..i] == points[..i];
      }
      if point.y < anchor.y || (point.y == anchor.y && point.x < anchor.x) {
        anchor := point;
      }
      i := i + 1;
    }
    assert points[..i] == points;
  }

  /** Every three consecutive vertices turn strictly left. */
  predicate LeftTurns(hull: seq<Vec2>) {
    forall k :: 0 <= k < |hull| - 2 ==> CrossProduct(hull[k], hull[k + 1], hull[k + 2]) > 0.0
  }

  /** Graham's scan over the points in the order std::sort leaves them; the
      sort is not modelled, its result is passed in with the contract of
      std::sort under ComparePoints. */
  method FindConvexHull(points: seq<Vec2>, sorted: seq<Vec2>) returns (hull: seq<Vec2>)
    requires |points| >= 2
    requires multiset(sorted) == multiset(points)
    requires forall i, j :: 0 <= i < j < |sorted| ==> !ComparePoints(sorted[j], sorted[i], Anchor(points))
    ensures 2 <= |hull| <= |points|
    ensures hull[0] == sorted[0] && hull[|hull| - 1] == sorted[|sorted| - 1]
    ensures forall v :: v in hull ==> v in points
    ensures LeftTurns(hull)
  {
    var anchor := FindAnchor(points);
    assert |sorted| == |points| by {
      assert |multiset(sorted)| == |multiset(points)|;
    }
    hull := [sorted[0], sorted[1]];
    var hullSize := 2;
    var i := 2;
    while i < |sorted|
      invariant 2 <= i <= |sorted|
      invariant hullSize == |hull| && 2 <= hullSize <= i
      invariant hull[0] == sorted[0] && hull[|hull| - 1] == sorted[i - 1]
      invariant forall v :: v in hull ==> v in multiset(sorted)
      invariant LeftTurns(hull)
    {
      while hullSize >= 2 && CrossProduct(hull[hullSize - 2], hull[hullSize - 1], sorted[i]) <= 0.0
        invariant 1 <= hullSize == |hull| && hull[0] == sorted[0]
        invariant forall v :: v in hull ==> v in multiset(sorted)
        invariant LeftTurns(hull)
      {
        hull := hull[..hullSize - 1];
        hullSize := hullSize - 1;
      }
      hull := hull + [sorted[i]];
      hullSize := hullSize + 1;
      i := i + 1;
    }
  }

  /** The turn from edge i of the hull (vertex i to vertex i + 1, the last
      closing back to the first) towards the point. */
  function EdgeTurn(hull: seq<Vec2>, i: int, point: Vec2): real
    requires 0 <= i < |hull|
  {
    CrossProduct(hull[i], hull[(i + 1) % |hull|], point)
  }

  /** True when the point is on the inner side of, or on, every edge. */
  method IsPointInsideConvexHull(point: Vec2, hull: seq<Vec2>) returns (inside: bool)
    ensures inside <==> forall i :: 0 <= i < |hull| ==> EdgeTurn(hull, i, point) >= 0.0
  {
    var i := 0;
    while i < |hull|
      invariant 0 <= i <= |hull|
      invariant forall k :: 0 <= k < i ==> EdgeTurn(hull, k, point) >= 0.0
    {
      var vertex1 := hull[i];
      var vertex2 := hull[(i + 1) % |hull|];
      if CrossProduct(vertex1, vertex2, point) < 0.0 {
        assert EdgeTurn(hull, i, point) < 0.0;
        return false;
      }
      i := i + 1;
    }
    return true;
  }

  /** The four corners of a rectangle around the centre, counter-clockwise
      from the lower left. */
  function GetRectangularVertices(center: Vec2, sx: real, sy: real): (r: seq<Vec2>)
    ensures |r| == 4
  {
    [Vec2(center.x - sx / 2.0, center.y - sy / 2.0), Vec2(center.x + sx / 2.0, center.y - sy / 2.0),
     Vec2(center.x + sx / 2.0, center.y + sy / 2.0), Vec2(center.x - sx / 2.0, center.y + sy / 2.0)]
  }

  function SumOf(vs: seq<Vec2>): Vec2 {
    if vs == [] then Vec2(0.0, 0.0) else Add2(SumOf(vs[..|vs| - 1]), vs[|vs| - 1])
  }

  /** The centre of gravity of the vertices. */
  function Mean(vs: seq<Vec2>): Vec2
    requires |vs| > 0
  {
    var s := SumOf(vs);
    Vec2(s.x * (1.0 / |vs| as real), s.y * (1.0 / |vs| as real))
  }

  /** A rectangle with positive sides is centred on its centre and its
      corners turn left, so they form a convex hull. */
  lemma RectangleAroundCenter(center: Vec2, sx: real, sy: real)
    requires sx > 0.0 && sy > 0.0
    ensures Mean(GetRectangularVertices(center, sx, sy)) == center
    ensures LeftTurns(GetRectangularVertices(center, sx, sy))
  {
    var r := GetRectangularVertices(center, sx, sy);
    assert r[..1][..0] == [] && r[..2][..1] == r[..1] && r[..3][..2] == r[..2] && r[..4] == r && r[..4][..3] == r[..3];
    assert SumOf(r[..1]) == r[0];
    assert SumOf(r[..2]) == Add2(r[0], r[1]);
    assert SumOf(r[..3]) == Add2(Add2(r[0], r[1]), r[2]);
    assert SumOf(r) == Vec2(4.0 * center.x, 4.0 * center.y);
    assert CrossProduct(r[0], r[1], r[2]) == sx * sy;
    assert CrossProduct(r[1], r[2], r[3]) == sx * sy;
    assert sx * sy > 0.0;
  }

  /** The loop that adds up the vertices and scales the sum by one over
      their number. */
  method Centre(vs: seq<Vec2>) returns (c: Vec2)
    requires |vs| > 0
    ensures c == Mean(vs)
  {
    var sum := Vec2(0.0, 0.0);
    var k := 0;
    while k < |vs|
      invariant 0 <= k <= |vs| && sum == SumOf(vs[..k])
    {
      assert vs[..k + 1][..k] == vs[..k];
      sum := Add2(sum, vs[k]);
      k := k + 1;
    }
    assert vs[..k] == vs;
    c := Vec2(sum.x * (1.0 / |vs| as real), sum.y * (1.0 / |vs| as real));
  }

  /** The running maximum over the vertices of their distance to the centre,
      starting from 0. */
  method LargestDistance(vs: seq<Vec2>, c: Vec2, length: Vec2 -> real) returns (r: real)
    ensures r >= 0.0 && forall i :: 0 <= i < |vs| ==> length(Sub2(vs[i], c)) <= r
    ensures r == 0.0 || exists i :: 0 <= i < |vs| && length(Sub2(vs[i], c)) == r
  {
    r := 0.0;
    var k := 0;
    while k < |vs|
      invariant 0 <= k <= |vs| && r >= 0.0
      invariant forall j :: 0 <= j < k ==> length(Sub2(vs[j], c)) <= r
      invariant r == 0.0 || exists j :: 0 <= j < k && length(Sub2(vs[j], c)) == r
    {
      var distance := length(Sub2(vs[k], c));
      if distance > r {
        r := distance;
      }
      k := k + 1;
    }
  }

  class ExperimentalReadoutPixel {
    var vertices: seq<Vec2>
    var center: Vec2
    var radius: real
    var channel: int

    /** The vertices become the convex hull of the given ones, the centre its
        mean, and the radius the largest distance from the centre to a vertex.
        Fewer than three vertices raise invalid_argument. TVector2::Mod is the
        parameter length. */
    method InitializeVertices(given: seq<Vec2>, sorted: seq<Vec2>, length: Vec2 -> real) returns (thrown: bool)
      requires |given| >= 3 ==> multiset(sorted) == multiset(given)
      requires |given| >= 3 ==>
                 forall i, j :: 0 <= i < j < |sorted| ==> !ComparePoints(sorted[j], sorted[i], Anchor(given))
      modifies this
      ensures thrown <==> |given| < 3
      ensures thrown ==> vertices == old(vertices) && center == old(center) && radius == old(radius)
      ensures !thrown ==> 2 <= |vertices| <= |given| && LeftTurns(vertices) && forall v :: v in vertices ==> v in given
      ensures !thrown ==> center == Mean(vertices)
      ensures !thrown ==> radius >= 0.0 && forall i :: 0 <= i < |vertices| ==> length(Sub2(vertices[i], center)) <= radius
      ensures !thrown ==> radius == 0.0 || exists i :: 0 <= i < |vertices| && length(Sub2(vertices[i], center)) == radius
      ensures channel == old(channel)
    {
      if |given| < 3 {
        return true;
      }
      var hull := FindConvexHull(given, sorted);
      var c := Centre(hull);
      var r := LargestDistance(hull, c, length);
      vertices, center, radius := hull, c, r;
      return false;
    }

    method IsInside(point: Vec2) returns (inside: bool)
      ensures inside <==> forall i :: 0 <= i < |vertices| ==> EdgeTurn(vertices, i, point) >= 0.0
    {
      inside := IsPointInsideConvexHull(point, vertices);
    }
  }
}
