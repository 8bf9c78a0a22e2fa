/** Polygon area, the segment-intersection test, the self-intersection scan,
    the ordered polygon validator, the colour policy and the closing-click
    proximity test (src/utils/polygonValidation.ts). */
module PolygonValidation {

  import opened Optional
  import opened Types
  import Palette
  import Seqs
  import TriangleValidation

  /** Smallest accepted area, in square degrees. */
  const MIN_AREA_THRESHOLD: real := 0.001

  const POLYGON_COLORS: seq<string> :=
    ["#4CBACB", "#E74C3C", "#F39C12", "#27AE60", "#8E44AD", "#3498DB"]

  /** Values of the orientation determinant below this magnitude count as collinear. */
  const COLLINEAR_EPSILON: real := 0.0000000001

  /** Default closing distance of `isPointNearby`, in degrees. */
  const DEFAULT_NEARBY_THRESHOLD: real := 0.001

  const TOO_FEW_VERTICES: string := "Polygon must have at least 3 vertices"
  const SELF_INTERSECTING: string := "Polygon cannot intersect itself"
  const POLYGON_TOO_SMALL: string := "Polygon too small - please draw a larger area"

  // ---------------------------------------------------------------------------
  // Area

  /** The shoelace term of the edge from p to q. */
  function Cross(p: Coord, q: Coord): real {
    p.lng * q.lat - q.lng * p.lat
  }

  /** The loop's running sum after `i` iterations: the terms of the edges
      from vertex k to vertex (k + 1) % n, for k < i. */
  function ShoelaceSum(vs: seq<Coord>, i: nat): real
    requires i <= |vs|
  {
    if i == 0 then 0.0 else ShoelaceSum(vs, i - 1) + Cross(vs[i - 1], vs[i % |vs|])
  }

  /** Generalised shoelace formula; 0 for fewer than 3 vertices. */
  function PolygonArea(vs: seq<Coord>): (area: real)
    ensures area >= 0.0
    ensures |vs| < 3 ==> area == 0.0
  {
    if |vs| < 3 then 0.0 else Abs(ShoelaceSum(vs, |vs|)) / 2.0
  }

  /** Reference definition of the shoelace sum over an open path: the terms of
      consecutive vertex pairs. */
  function PathSum(s: seq<Coord>): real {
    if |s| < 2 then 0.0 else Cross(s[0], s[1]) + PathSum(s[1..])
  }

  /** The shoelace sum over the closed boundary. */
  function ClosedSum(vs: seq<Coord>): real
    requires |vs| > 0
  {
    PathSum(vs + [vs[0]])
  }

  lemma {:induction false} PathSumAppend(a: seq<Coord>, b: seq<Coord>)
    requires |a| > 0 && |b| > 0
    ensures PathSum(a + b) == PathSum(a) + Cross(a[|a| - 1], b[0]) + PathSum(b)
  {
    if |a| == 1 {
      assert a + b == [a[0]] + b;
      assert (a + b)[1..] == b;
    } else {
      assert (a + b)[1..] == a[1..] + b;
      PathSumAppend(a[1..], b);
    }
  }

  lemma CrossAntisymmetric(p: Coord, q: Coord)
    ensures Cross(q, p) == -Cross(p, q)
  {
  }

  lemma {:induction false} PathSumReverse(s: seq<Coord>)
    ensures PathSum(Seqs.Reverse(s)) == -PathSum(s)
  {
    if |s| >= 2 {
      var rest := Seqs.Reverse(s[1..]);
      assert Seqs.Reverse(s) == rest + [s[0]];
      PathSumReverse(s[1..]);
      PathSumAppend(rest, [s[0]]);
      assert rest[|rest| - 1] == s[1];
      CrossAntisymmetric(s[0], s[1]);
    }
  }

  /** After n iterations the source's loop has summed exactly the edges of the
      closed boundary. */
  lemma {:induction false} ShoelaceSumIsClosedSum(vs: seq<Coord>)
    requires |vs| > 0
    ensures ShoelaceSum(vs, |vs|) == ClosedSum(vs)
  {
    var n := |vs|;
    ShoelacePrefix(vs, n - 1);
    assert vs[..n] == vs;
    if n == 1 {
      assert PathSum(vs + [vs[0]]) == Cross(vs[0], vs[0]) + PathSum([vs[0]]);
    } else {
      PathSumAppend(vs, [vs[0]]);
    }
  }

  lemma {:induction false} ShoelacePrefix(vs: seq<Coord>, i: nat)
    requires i < |vs|
    ensures ShoelaceSum(vs, i) == PathSum(vs[..i + 1])
  {
    if i > 0 {
      ShoelacePrefix(vs, i - 1);
      assert i % |vs| == i;
      assert ShoelaceSum(vs, i) == ShoelaceSum(vs, i - 1) + Cross(vs[i - 1], vs[i]);
      var a := vs[..i];
      assert vs[..i + 1] == a + [vs[i]];
      PathSumAppend(a, [vs[i]]);
      assert a[|a| - 1] == vs[i - 1];
      assert PathSum([vs[i]]) == 0.0;
    } else {
      assert PathSum(vs[..1]) == 0.0;
    }
  }

  /** Traversing the boundary the other way round negates the signed sum. */
  lemma ClosedSumReverse(vs: seq<Coord>)
    requires |vs| > 0
    ensures ClosedSum(Seqs.Reverse(vs)) == -ClosedSum(vs)
  {
    var n := |vs|;
    var r := Seqs.Reverse(vs);
    var last := vs[n - 1];
    assert r + [r[0]] == Seqs.Reverse([last] + vs);
    PathSumReverse([last] + vs);
    PathSumAppend([last], vs);
    if n == 1 {
      assert PathSum(vs + [vs[0]]) == Cross(vs[0], vs[0]) + PathSum([vs[0]]);
    } else {
      PathSumAppend(vs, [vs[0]]);
    }
  }

  /** Starting the boundary at the next vertex does not change the signed sum. */
  lemma ClosedSumRotate(vs: seq<Coord>)
    requires |vs| >= 2
    ensures ClosedSum(vs[1..] + [vs[0]]) == ClosedSum(vs)
  {
    var x, rest := vs[0], vs[1..];
    assert vs + [vs[0]] == [x] + (rest + [x]);
    PathSumAppend([x], rest + [x]);
    PathSumAppend(rest, [x]);
    assert rest + [x] + [rest[0]] == rest + [x, rest[0]];
    PathSumAppend(rest, [x, rest[0]]);
  }

  /** Clockwise and counter-clockwise listings of a polygon have the same area. */
  lemma PolygonAreaReverse(vs: seq<Coord>)
    ensures PolygonArea(Seqs.Reverse(vs)) == PolygonArea(vs)
  {
    if |vs| >= 3 {
      ShoelaceSumIsClosedSum(vs);
      ShoelaceSumIsClosedSum(Seqs.Reverse(vs));
      ClosedSumReverse(vs);
    }
  }

  /** The area does not depend on which vertex the listing starts at. */
  lemma PolygonAreaRotate(vs: seq<Coord>)
    requires |vs| > 0
    ensures PolygonArea(vs[1..] + [vs[0]]) == PolygonArea(vs)
  {
    if |vs| >= 3 {
      ShoelaceSumIsClosedSum(vs);
      ShoelaceSumIsClosedSum(vs[1..] + [vs[0]]);
      ClosedSumRotate(vs);
    }
  }

  /** On three vertices the polygon formula agrees with the triangle formula. */
  lemma PolygonAreaOfTriangle(a: Coord, b: Coord, c: Coord)
    ensures PolygonArea([a, b, c]) == TriangleValidation.TriangleArea(TriangleVertices(a, b, c))
  {
    var vs := [a, b, c];
    var t := TriangleVertices(a, b, c);
    assert ShoelaceSum(vs, 1) == Cross(a, b);
    assert ShoelaceSum(vs, 2) == Cross(a, b) + Cross(b, c);
    assert 3 % 3 == 0;
    assert ShoelaceSum(vs, 3) == Cross(a, b) + Cross(b, c) + Cross(c, a);
    var x1, y1, x2, y2, x3, y3 := a.lng, a.lat, b.lng, b.lat, c.lng, c.lat;
    assert (x2 - x1) * (y3 - y1) == x2 * y3 - x2 * y1 - x1 * y3 + x1 * y1;
    assert (y2 - y1) * (x3 - x1) == y2 * x3 - y2 * x1 - y1 * x3 + y1 * x1;
    assert ShoelaceSum(vs, 3) == TriangleValidation.EdgeCross(t);
  }

  lemma QuadrilateralClosedSum(a: Coord, b: Coord, c: Coord, d: Coord)
    ensures ClosedSum([a, b, c, d]) == Cross(a, b) + Cross(b, c) + Cross(c, d) + Cross(d, a)
  {
    assert [a, b, c, d] + [[a, b, c, d][0]] == [a, b, c, d, a];
    assert [a, b, c, d, a][1..] == [b, c, d, a];
    assert [b, c, d, a][1..] == [c, d, a];
    assert [c, d, a][1..] == [d, a];
    assert PathSum([d, a]) == Cross(d, a);
    assert PathSum([c, d, a]) == Cross(c, d) + Cross(d, a);
    assert PathSum([b, c, d, a]) == Cross(b, c) + Cross(c, d) + Cross(d, a);
  }

  /** The unit square has area 1 whichever way round it is listed. */
  lemma UnitSquareArea()
    ensures PolygonArea([Coord(0.0, 0.0), Coord(1.0, 0.0), Coord(1.0, 1.0), Coord(0.0, 1.0)]) == 1.0
    ensures PolygonArea([Coord(0.0, 0.0), Coord(0.0, 1.0), Coord(1.0, 1.0), Coord(1.0, 0.0)]) == 1.0
  {
    var a, b, c, d := Coord(0.0, 0.0), Coord(1.0, 0.0), Coord(1.0, 1.0), Coord(0.0, 1.0);
    QuadrilateralClosedSum(a, b, c, d);
    QuadrilateralClosedSum(a, d, c, b);
    AreaOfClosedSum([a, b, c, d], 2.0);
    AreaOfClosedSum([a, d, c, b], -2.0);
  }

  /** The area is half the magnitude of the closed-boundary sum. */
  lemma AreaOfClosedSum(vs: seq<Coord>, sum: real)
    requires |vs| >= 3 && ClosedSum(vs) == sum
    ensures PolygonArea(vs) == Abs(sum) / 2.0
  {
    ShoelaceSumIsClosedSum(vs);
  }

  // ---------------------------------------------------------------------------
  // Segment intersection

  /** The three outcomes of `orientation`: 0, 1 and 2 in the source. */
  datatype Orientation = Collinear | Clockwise | CounterClockwise

  /** The orientation determinant of the ordered triple (p, q, r). */
  function OrientationValue(p: Coord, q: Coord, r: Coord): real {
    (q.lat - p.lat) * (r.lng - q.lng) - (q.lng - p.lng) * (r.lat - q.lat)
  }

  function Orient(p: Coord, q: Coord, r: Coord): (o: Orientation)
    ensures o == Collinear <==> Abs(OrientationValue(p, q, r)) < COLLINEAR_EPSILON
    ensures o == Clockwise ==> OrientationValue(p, q, r) > 0.0
    ensures o == CounterClockwise ==> OrientationValue(p, q, r) < 0.0
  {
    var v := OrientationValue(p, q, r);
    if Abs(v) < COLLINEAR_EPSILON then Collinear
    else if v > 0.0 then Clockwise
    else CounterClockwise
  }

  function Flip(o: Orientation): Orientation {
    match o
    case Collinear => Collinear
    case Clockwise => CounterClockwise
    case CounterClockwise => Clockwise
  }

  /** The determinant is minus twice the signed area of (p, q, r), so the
      orientation agrees with the triangle's winding. */
  lemma OrientationIsSignedArea(p: Coord, q: Coord, r: Coord)
    ensures OrientationValue(p, q, r) == -TriangleValidation.EdgeCross(TriangleVertices(p, q, r))
  {
    var x1, y1, x2, y2, x3, y3 := p.lng, p.lat, q.lng, q.lat, r.lng, r.lat;
    assert (y2 - y1) * (x3 - x2) == y2 * x3 - y2 * x2 - y1 * x3 + y1 * x2;
    assert (x2 - x1) * (y3 - y2) == x2 * y3 - x2 * y2 - x1 * y3 + x1 * y2;
    assert (x2 - x1) * (y3 - y1) == x2 * y3 - x2 * y1 - x1 * y3 + x1 * y1;
    assert (y2 - y1) * (x3 - x1) == y2 * x3 - y2 * x1 - y1 * x3 + y1 * x1;
  }

  /** Rotating the triple keeps its orientation; swapping two points flips it. */
  lemma OrientationSymmetries(p: Coord, q: Coord, r: Coord)
    ensures Orient(q, r, p) == Orient(p, q, r)
    ensures Orient(q, p, r) == Flip(Orient(p, q, r))
  {
    OrientationIsSignedArea(p, q, r);
    OrientationIsSignedArea(q, r, p);
    OrientationIsSignedArea(q, p, r);
    TriangleValidation.TriangleAreaRotate(TriangleVertices(p, q, r));
    var t := TriangleVertices(p, q, r);
    var x1, y1, x2, y2, x3, y3 := p.lng, p.lat, q.lng, q.lat, r.lng, r.lat;
    assert (x3 - x2) * (y1 - y2) == x3 * y1 - x3 * y2 - x2 * y1 + x2 * y2;
    assert (y3 - y2) * (x1 - x2) == y3 * x1 - y3 * x2 - y2 * x1 + y2 * x2;
    assert (x2 - x1) * (y3 - y1) == x2 * y3 - x2 * y1 - x1 * y3 + x1 * y1;
    assert (y2 - y1) * (x3 - x1) == y2 * x3 - y2 * x1 - y1 * x3 + y1 * x1;
    assert TriangleValidation.EdgeCross(TriangleVertices(q, r, p)) == TriangleValidation.EdgeCross(t);
    assert (x1 - x2) * (y3 - y2) == x1 * y3 - x1 * y2 - x2 * y3 + x2 * y2;
    assert (y1 - y2) * (x3 - x2) == y1 * x3 - y1 * x2 - y2 * x3 + y2 * x2;
    assert TriangleValidation.EdgeCross(TriangleVertices(q, p, r)) == -TriangleValidation.EdgeCross(t);
  }

  /** q lies within the axis-aligned bounding box of segment pr. */
  predicate OnSegment(p: Coord, q: Coord, r: Coord) {
    && q.lng <= Max(p.lng, r.lng) && q.lng >= Min(p.lng, r.lng)
    && q.lat <= Max(p.lat, r.lat) && q.lat >= Min(p.lat, r.lat)
  }

  function Max(a: real, b: real): real { if a >= b then a else b }
  function Min(a: real, b: real): real { if a <= b then a else b }

  /** `doSegmentsIntersect`: the general case, then the four collinear special cases. */
  predicate SegmentsIntersect(p1: Coord, q1: Coord, p2: Coord, q2: Coord) {
    var o1, o2 := Orient(p1, q1, p2), Orient(p1, q1, q2);
    var o3, o4 := Orient(p2, q2, p1), Orient(p2, q2, q1);
    || (o1 != o2 && o3 != o4)
    || (o1 == Collinear && OnSegment(p1, p2, q1))
    || (o2 == Collinear && OnSegment(p1, q2, q1))
    || (o3 == Collinear && OnSegment(p2, p1, q2))
    || (o4 == Collinear && OnSegment(p2, q1, q2))
  }

  /** The test does not depend on which segment is named first, nor on the
      direction in which a segment is given. */
  lemma SegmentsIntersectSymmetric(p1: Coord, q1: Coord, p2: Coord, q2: Coord)
    ensures SegmentsIntersect(p1, q1, p2, q2) == SegmentsIntersect(p2, q2, p1, q1)
    ensures SegmentsIntersect(p1, q1, p2, q2) == SegmentsIntersect(q1, p1, p2, q2)
  {
    OrientationSymmetries(p1, q1, p2);
    OrientationSymmetries(p1, q1, q2);
    OrientationSymmetries(p2, q2, p1);
    OrientationSymmetries(p2, q2, q1);
    OrientationSymmetries(q1, p1, p2);
    OrientationSymmetries(q1, p1, q2);
  }

  /** Segments that share an endpoint always count as intersecting, which is
      why the scan skips adjacent edges. */
  lemma SharedEndpointIntersects(p: Coord, q: Coord, r: Coord)
    ensures SegmentsIntersect(p, q, q, r)
  {
    assert OrientationValue(p, q, q) == 0.0;
  }

  // ---------------------------------------------------------------------------
  // Self-intersection

  /** Edge i runs from vertex i to vertex (i + 1) % n. */
  predicate EdgesIntersect(vs: seq<Coord>, i: nat, j: nat)
    requires i < |vs| && j < |vs|
  {
    var n := |vs|;
    SegmentsIntersect(vs[i], vs[(i + 1) % n], vs[j], vs[(j + 1) % n])
  }

  /** Reference definition: some pair of non-adjacent edges intersects (edge 0
      and the closing edge n-1 are adjacent). */
  predicate SelfIntersects(vs: seq<Coord>) {
    exists i, j | 0 <= i < |vs| && i + 2 <= j < |vs| ::
      !(i == 0 && j == |vs| - 1) && EdgesIntersect(vs, i, j)
  }

  /** Triangles, segments and points never self-intersect. */
  lemma FewVerticesNeverSelfIntersect(vs: seq<Coord>)
    requires |vs| < 4
    ensures !SelfIntersects(vs)
  {
  }

  /** `checkSelfIntersection`: the source's nested scan, stopping at the
      first intersecting pair. */
  method CheckSelfIntersection(vs: seq<Coord>) returns (intersects: bool)
    ensures intersects <==> SelfIntersects(vs)
  {
    var n := |vs|;
    if n < 4 {
      return false;
    }
    var i := 0;
    while i < n
      invariant 0 <= i <= n
      invariant forall i', j' | 0 <= i' < i && i' + 2 <= j' < n ::
        (i' == 0 && j' == n - 1) || !EdgesIntersect(vs, i', j')
    {
      var j := i + 2;
      while j < n
        invariant i + 2 <= j
        invariant j <= n || j == i + 2
        invariant forall j' | i + 2 <= j' < j && j' < n ::
          (i == 0 && j' == n - 1) || !EdgesIntersect(vs, i, j')
      {
        if !(j == n - 1 && i == 0) {
          if SegmentsIntersect(vs[i], vs[(i + 1) % n], vs[j], vs[(j + 1) % n]) {
            assert EdgesIntersect(vs, i, j);
            return true;
          }
        }
        j := j + 1;
      }
      i := i + 1;
    }
    return false;
  }

  /** The bowtie [[0,0],[1,1],[1,0],[0,1]] crosses itself. */
  lemma BowtieSelfIntersects()
    ensures SelfIntersects([Coord(0.0, 0.0), Coord(1.0, 1.0), Coord(1.0, 0.0), Coord(0.0, 1.0)])
  {
    DiagonalsIntersect();
    CrossedQuadrilateral(Coord(0.0, 0.0), Coord(1.0, 1.0), Coord(1.0, 0.0), Coord(0.0, 1.0));
  }

  /** A quadrilateral whose first and third edges meet crosses itself. */
  lemma CrossedQuadrilateral(a: Coord, b: Coord, c: Coord, d: Coord)
    requires SegmentsIntersect(a, b, c, d)
    ensures SelfIntersects([a, b, c, d])
  {
    var vs := [a, b, c, d];
    assert (0 + 1) % 4 == 1 && (2 + 1) % 4 == 3;
    assert EdgesIntersect(vs, 0, 2);
  }

  /** The two diagonals of the unit square cross properly. */
  lemma DiagonalsIntersect()
    ensures SegmentsIntersect(Coord(0.0, 0.0), Coord(1.0, 1.0), Coord(1.0, 0.0), Coord(0.0, 1.0))
  {
    var p1, q1, p2, q2 := Coord(0.0, 0.0), Coord(1.0, 1.0), Coord(1.0, 0.0), Coord(0.0, 1.0);
    assert Orient(p1, q1, p2) == Clockwise;
    assert Orient(p1, q1, q2) == CounterClockwise;
  }

  /** The unit square does not. */
  lemma SquareDoesNotSelfIntersect()
    ensures !SelfIntersects([Coord(0.0, 0.0), Coord(1.0, 0.0), Coord(1.0, 1.0), Coord(0.0, 1.0)])
  {
    var vs := [Coord(0.0, 0.0), Coord(1.0, 0.0), Coord(1.0, 1.0), Coord(0.0, 1.0)];
    assert !EdgesIntersect(vs, 0, 2);
    assert !EdgesIntersect(vs, 1, 3);
    forall i, j | 0 <= i < 4 && i + 2 <= j < 4 && !(i == 0 && j == 3)
      ensures !EdgesIntersect(vs, i, j)
    {
      assert (i == 0 && j == 2) || (i == 1 && j == 3);
    }
  }

  // ---------------------------------------------------------------------------
  // Validation

  /** Checks, in order: vertex count, self-intersection, area; the first
      failing check alone is reported. */
  function ValidatePolygon(vs: seq<Coord>): (r: PolygonValidationResult)
    ensures |vs| < 3 ==> r == PolygonValidationResult(false, Some(TOO_FEW_VERTICES), None, None)
    ensures |vs| >= 3 && SelfIntersects(vs) ==>
      r == PolygonValidationResult(false, Some(SELF_INTERSECTING), None, Some(true))
    ensures |vs| >= 3 && !SelfIntersects(vs) ==>
      && r.area == Some(PolygonArea(vs))
      && r.selfIntersects == Some(false)
      && (r.error.None? <==> r.valid)
      && (!r.valid ==> r.error == Some(POLYGON_TOO_SMALL))
    ensures r.valid <==> |vs| >= 3 && !SelfIntersects(vs) && PolygonArea(vs) >= MIN_AREA_THRESHOLD
  {
    if |vs| < 3 then
      PolygonValidationResult(false, Some(TOO_FEW_VERTICES), None, None)
    else if SelfIntersects(vs) then
      PolygonValidationResult(false, Some(SELF_INTERSECTING), None, Some(true))
    else
      var area := PolygonArea(vs);
      if area < MIN_AREA_THRESHOLD then
        PolygonValidationResult(false, Some(POLYGON_TOO_SMALL), Some(area), Some(false))
      else
        PolygonValidationResult(true, None, Some(area), Some(false))
  }

  /** The colour of the polygon drawn after `count` existing ones. */
  function AssignPolygonColor(count: nat): (color: string)
    ensures color in POLYGON_COLORS
    ensures count < |POLYGON_COLORS| ==> color == POLYGON_COLORS[count]
    ensures color == AssignPolygonColor(count % |POLYGON_COLORS|)
  {
    Palette.Cycle(POLYGON_COLORS, count)
  }

  // ---------------------------------------------------------------------------
  // Closing-click proximity

  /** `sqrt(dx² + dy²) <= threshold`, stated without the square root: the
      Euclidean distance in degrees is at most the threshold. */
  predicate IsPointNearby(p1: Coord, p2: Coord, threshold: real) {
    var dx, dy := p1.lng - p2.lng, p1.lat - p2.lat;
    threshold >= 0.0 && dx * dx + dy * dy <= threshold * threshold
  }

  /** For the non-negative square root `s` of dx² + dy², the predicate is
      exactly the source's comparison `s <= threshold`. */
  lemma IsPointNearbyMatchesSqrt(p1: Coord, p2: Coord, threshold: real, s: real)
    requires s >= 0.0
    requires s * s == (p1.lng - p2.lng) * (p1.lng - p2.lng) + (p1.lat - p2.lat) * (p1.lat - p2.lat)
    ensures IsPointNearby(p1, p2, threshold) <==> s <= threshold
  {
    if s <= threshold {
      SquareLe(threshold, s);
    } else if threshold >= 0.0 {
      SquareLt(s, threshold);
    }
  }

  lemma SquareLe(x: real, y: real)
    requires 0.0 <= y <= x
    ensures y * y <= x * x
  {
  }

  lemma SquareLt(x: real, y: real)
    requires 0.0 <= y < x
    ensures y * y < x * x
  {
    PositiveProduct(x - y, x + y);
    assert (x - y) * (x + y) == x * x - y * y;
  }

  lemma PositiveProduct(a: real, b: real)
    requires a > 0.0 && b > 0.0
    ensures a * b > 0.0
  {
  }

  /** Symmetric, reflexive for a non-negative threshold, and inclusive at the threshold. */
  lemma IsPointNearbyProperties(p1: Coord, p2: Coord, threshold: real)
    ensures IsPointNearby(p1, p2, threshold) == IsPointNearby(p2, p1, threshold)
    ensures threshold >= 0.0 ==> IsPointNearby(p1, p1, threshold)
    ensures threshold >= 0.0 ==> IsPointNearby(p1, Coord(p1.lng + threshold, p1.lat), threshold)
  {
    var dx, dy := p1.lng - p2.lng, p1.lat - p2.lat;
    assert (p2.lng - p1.lng) * (p2.lng - p1.lng) == dx * dx;
    assert (p2.lat - p1.lat) * (p2.lat - p1.lat) == dy * dy;
  }
}
