/** Which map locations fall inside which area of interest (src/utils/spatialAnalysis.ts):
    the barycentric triangle test, the distance-based circle test, the
    ray-casting polygon test, the three location filters built on them, the
    per-AOI analysis and its summary statistics. */
module SpatialAnalysis {

  import opened Optional
  import opened Types
  import opened Distance
  import opened Seqs
  import TriangleValidation

  /** Below this absolute denominator a triangle counts as degenerate. */
  const DEGENERATE_EPSILON: real := 0.0000000001

  // ---------------------------------------------------------------------------
  // Triangle containment

  /** The barycentric denominator (y2-y3)(x1-x3) + (x3-x2)(y1-y3). */
  function Denominator(t: TriangleVertices): real {
    (t.v2.lat - t.v3.lat) * (t.v1.lng - t.v3.lng) + (t.v3.lng - t.v2.lng) * (t.v1.lat - t.v3.lat)
  }

  predicate Degenerate(t: TriangleVertices) {
    Abs(Denominator(t)) < DEGENERATE_EPSILON
  }

  /** The weight of v1 in the barycentric coordinates of `p`. */
  function WeightA(p: Coord, t: TriangleVertices): real
    requires Denominator(t) != 0.0
  {
    ((t.v2.lat - t.v3.lat) * (p.lng - t.v3.lng) + (t.v3.lng - t.v2.lng) * (p.lat - t.v3.lat)) / Denominator(t)
  }

  /** The weight of v2 in the barycentric coordinates of `p`. */
  function WeightB(p: Coord, t: TriangleVertices): real
    requires Denominator(t) != 0.0
  {
    ((t.v3.lat - t.v1.lat) * (p.lng - t.v3.lng) + (t.v1.lng - t.v3.lng) * (p.lat - t.v3.lat)) / Denominator(t)
  }

  /** Inside (boundary included) when all three barycentric weights are
      non-negative; a degenerate triangle contains nothing. */
  function IsPointInTriangle(p: Coord, t: TriangleVertices): (inside: bool)
    ensures Degenerate(t) ==> !inside
    ensures inside <==> && !Degenerate(t) && Denominator(t) != 0.0
                        && WeightA(p, t) >= 0.0 && WeightB(p, t) >= 0.0
                        && WeightA(p, t) + WeightB(p, t) <= 1.0
  {
    if Degenerate(t) then false
    else
      var a := WeightA(p, t);
      var b := WeightB(p, t);
      var c := 1.0 - a - b;
      a >= 0.0 && b >= 0.0 && c >= 0.0
  }

  /** The point with weights `a`, `b`, `1 - a - b` on v1, v2, v3. */
  function Mix(t: TriangleVertices, a: real, b: real): Coord {
    Coord(a * t.v1.lng + b * t.v2.lng + (1.0 - a - b) * t.v3.lng,
          a * t.v1.lat + b * t.v2.lat + (1.0 - a - b) * t.v3.lat)
  }

  /** The denominator is twice the signed area of the triangle. */
  lemma DenominatorIsEdgeCross(t: TriangleVertices)
    ensures Denominator(t) == TriangleValidation.EdgeCross(t)
  {
    var x1, y1, x2, y2, x3, y3 := t.v1.lng, t.v1.lat, t.v2.lng, t.v2.lat, t.v3.lng, t.v3.lat;
    assert (y2 - y3) * (x1 - x3) == y2 * x1 - y2 * x3 - y3 * x1 + y3 * x3;
    assert (x3 - x2) * (y1 - y3) == x3 * y1 - x3 * y3 - x2 * y1 + x2 * y3;
    assert (x2 - x1) * (y3 - y1) == x2 * y3 - x2 * y1 - x1 * y3 + x1 * y1;
    assert (y2 - y1) * (x3 - x1) == y2 * x3 - y2 * x1 - y1 * x3 + y1 * x1;
  }

  /** A triangle that passes validation is never degenerate here. */
  lemma ValidTriangleIsNotDegenerate(t: TriangleVertices)
    requires TriangleValidation.ValidateTriangle(t).valid
    ensures !Degenerate(t)
  {
    DenominatorIsEdgeCross(t);
    assert 2.0 * TriangleValidation.TriangleArea(t) == Abs(Denominator(t));
  }

  /** If `q == d * y` then `q / d == y`. */
  lemma DivideOut(q: real, d: real, y: real)
    requires d != 0.0 && q == d * y
    ensures q / d == y
  {
  }

  /** The numerators of the two weights, for a point displaced from v3 by
      `a` times v1 - v3 plus `b` times v2 - v3, are `a` and `b` times the
      denominator. */
  lemma NumeratorsOfMix(X1: real, Y1: real, X2: real, Y2: real, a: real, b: real)
    ensures Y2 * (a * X1 + b * X2) - X2 * (a * Y1 + b * Y2) == a * (Y2 * X1 - X2 * Y1)
    ensures -(Y1 * (a * X1 + b * X2)) + X1 * (a * Y1 + b * Y2) == b * (Y2 * X1 - X2 * Y1)
  {
    assert Y2 * (a * X1 + b * X2) == a * (Y2 * X1) + b * (Y2 * X2);
    assert X2 * (a * Y1 + b * Y2) == a * (X2 * Y1) + b * (X2 * Y2);
    assert Y1 * (a * X1 + b * X2) == a * (Y1 * X1) + b * (Y1 * X2);
    assert X1 * (a * Y1 + b * Y2) == a * (X1 * Y1) + b * (X1 * Y2);
  }

  lemma NegateFactor(u: real, v: real, w: real)
    ensures (u - v) * w == -((v - u) * w)
  {
  }

  /** The mix, written relative to v3. */
  lemma MixRelative(a: real, b: real, x1: real, x2: real, x3: real)
    ensures a * x1 + b * x2 + (1.0 - a - b) * x3 == x3 + a * (x1 - x3) + b * (x2 - x3)
  {
  }

  /** The denominator and both numerators, written relative to v3. */
  lemma RelativeForms(p: Coord, t: TriangleVertices)
    ensures Denominator(t) == (t.v2.lat - t.v3.lat) * (t.v1.lng - t.v3.lng) - (t.v2.lng - t.v3.lng) * (t.v1.lat - t.v3.lat)
    ensures Denominator(t) != 0.0 ==>
              WeightA(p, t) == ((t.v2.lat - t.v3.lat) * (p.lng - t.v3.lng) - (t.v2.lng - t.v3.lng) * (p.lat - t.v3.lat)) / Denominator(t)
    ensures Denominator(t) != 0.0 ==>
              WeightB(p, t) == (-((t.v1.lat - t.v3.lat) * (p.lng - t.v3.lng)) + (t.v1.lng - t.v3.lng) * (p.lat - t.v3.lat)) / Denominator(t)
  {
    NegateFactor(t.v3.lng, t.v2.lng, t.v1.lat - t.v3.lat);
    NegateFactor(t.v3.lng, t.v2.lng, p.lat - t.v3.lat);
    NegateFactor(t.v3.lat, t.v1.lat, p.lng - t.v3.lng);
  }

  /** The weights recover the point they were computed from. */
  lemma {:induction false} WeightsOfMix(t: TriangleVertices, a: real, b: real)
    requires Denominator(t) != 0.0
    ensures WeightA(Mix(t, a, b), t) == a
    ensures WeightB(Mix(t, a, b), t) == b
  {
    var X1, Y1 := t.v1.lng - t.v3.lng, t.v1.lat - t.v3.lat;
    var X2, Y2 := t.v2.lng - t.v3.lng, t.v2.lat - t.v3.lat;
    var p := Mix(t, a, b);
    MixRelative(a, b, t.v1.lng, t.v2.lng, t.v3.lng);
    MixRelative(a, b, t.v1.lat, t.v2.lat, t.v3.lat);
    var P, Q := p.lng - t.v3.lng, p.lat - t.v3.lat;
    assert P == a * X1 + b * X2;
    assert Q == a * Y1 + b * Y2;
    RelativeForms(p, t);
    NumeratorsOfMix(X1, Y1, X2, Y2, a, b);
    DivideOut(Y2 * P - X2 * Q, Denominator(t), a);
    DivideOut(-(Y1 * P) + X1 * Q, Denominator(t), b);
  }

  /** Cramer's rule for the 2x2 system a X1 + b X2 = P, a Y1 + b Y2 = Q. */
  lemma SolveWeights(X1: real, Y1: real, X2: real, Y2: real, P: real, Q: real)
    requires Y2 * X1 - X2 * Y1 != 0.0
    ensures var den := Y2 * X1 - X2 * Y1;
            var a, b := (Y2 * P - X2 * Q) / den, (-(Y1 * P) + X1 * Q) / den;
            a * X1 + b * X2 == P && a * Y1 + b * Y2 == Q
  {
    var den := Y2 * X1 - X2 * Y1;
    var numA, numB := Y2 * P - X2 * Q, -(Y1 * P) + X1 * Q;
    var a, b := numA / den, numB / den;
    assert a * den == numA;
    assert b * den == numB;
    assert (a * X1 + b * X2) * den == numA * X1 + numB * X2 by {
      assert (a * X1 + b * X2) * den == (a * den) * X1 + (b * den) * X2;
    }
    assert numA * X1 + numB * X2 == P * den;
    assert (a * Y1 + b * Y2) * den == numA * Y1 + numB * Y2 by {
      assert (a * Y1 + b * Y2) * den == (a * den) * Y1 + (b * den) * Y2;
    }
    assert numA * Y1 + numB * Y2 == Q * den;
    DivideOut(P * den, den, a * X1 + b * X2);
    DivideOut(Q * den, den, a * Y1 + b * Y2);
  }

  /** Every point is the mix of the vertices with its own weights. */
  lemma {:induction false} MixOfWeights(p: Coord, t: TriangleVertices)
    requires Denominator(t) != 0.0
    ensures Mix(t, WeightA(p, t), WeightB(p, t)) == p
  {
    var X1, Y1 := t.v1.lng - t.v3.lng, t.v1.lat - t.v3.lat;
    var X2, Y2 := t.v2.lng - t.v3.lng, t.v2.lat - t.v3.lat;
    var P, Q := p.lng - t.v3.lng, p.lat - t.v3.lat;
    RelativeForms(p, t);
    SolveWeights(X1, Y1, X2, Y2, P, Q);
    var a, b := WeightA(p, t), WeightB(p, t);
    MixRelative(a, b, t.v1.lng, t.v2.lng, t.v3.lng);
    MixRelative(a, b, t.v1.lat, t.v2.lat, t.v3.lat);
  }

  /** A point is inside a non-degenerate triangle exactly when it is a convex
      combination of the three vertices. */
  lemma InsideIffConvexCombination(p: Coord, t: TriangleVertices)
    requires !Degenerate(t)
    ensures IsPointInTriangle(p, t) <==>
              exists a: real, b: real {:trigger Mix(t, a, b)} ::
                a >= 0.0 && b >= 0.0 && a + b <= 1.0 && p == Mix(t, a, b)
  {
    if IsPointInTriangle(p, t) {
      MixOfWeights(p, t);
      var a, b := WeightA(p, t), WeightB(p, t);
      assert a >= 0.0 && b >= 0.0 && a + b <= 1.0 && p == Mix(t, a, b);
    }
    if exists a: real, b: real {:trigger Mix(t, a, b)} ::
         a >= 0.0 && b >= 0.0 && a + b <= 1.0 && p == Mix(t, a, b) {
      var a: real, b: real :| a >= 0.0 && b >= 0.0 && a + b <= 1.0 && p == Mix(t, a, b);
      WeightsOfMix(t, a, b);
    }
  }

  /** The vertices themselves lie inside (on the boundary of) the triangle. */
  lemma VerticesAreInside(t: TriangleVertices)
    requires !Degenerate(t)
    ensures IsPointInTriangle(t.v1, t)
    ensures IsPointInTriangle(t.v2, t)
    ensures IsPointInTriangle(t.v3, t)
  {
    assert Mix(t, 1.0, 0.0) == t.v1;
    WeightsOfMix(t, 1.0, 0.0);
    assert Mix(t, 0.0, 1.0) == t.v2;
    WeightsOfMix(t, 0.0, 1.0);
    assert Mix(t, 0.0, 0.0) == t.v3;
    WeightsOfMix(t, 0.0, 0.0);
  }

  /** Three points on a line form a degenerate triangle, which contains nothing,
      not even its own vertices. */
  lemma CollinearContainsNothing(p: Coord, t: TriangleVertices)
    requires TriangleValidation.Collinear(t)
    ensures !IsPointInTriangle(p, t)
  {
    DenominatorIsEdgeCross(t);
  }

  // ---------------------------------------------------------------------------
  // Circle containment

  /** Inside when the distance to the centre is at most the radius (metres). */
  predicate IsPointInCircle(p: Coord, center: Coord, radius: real, dist: DistanceFn) {
    dist(p, center) <= radius
  }

  /** The centre is inside any circle with a non-negative radius, and a larger
      concentric circle contains everything a smaller one does. */
  lemma {:induction false} CircleContainment(p: Coord, center: Coord, r1: real, r2: real, dist: DistanceFn)
    requires IsDistance(dist)
    requires 0.0 <= r1 <= r2
    ensures IsPointInCircle(center, center, r1, dist)
    ensures IsPointInCircle(p, center, r1, dist) ==> IsPointInCircle(p, center, r2, dist)
  {
    assert dist(center, center) == 0.0;
  }

  // ---------------------------------------------------------------------------
  // Polygon containment (ray casting)

  /** The ray from `p` towards +lng crosses the edge from `a` (vertex i) to
      `b` (vertex j): the edge straddles the ray's latitude and meets it to
      the east of `p`. */
  predicate Crosses(p: Coord, a: Coord, b: Coord) {
    && ((a.lat > p.lat) != (b.lat > p.lat))
    && p.lng < (b.lng - a.lng) * (p.lat - a.lat) / (b.lat - a.lat) + a.lng
  }

  /** The index `j` that trails `i` in the loop: the previous vertex, with
      vertex 0 paired to the last. */
  function Prev(n: nat, i: nat): nat
    requires i < n
  {
    if i == 0 then n - 1 else i - 1
  }

  /** The value of `inside` after the first `k` loop iterations. */
  function CrossingParity(p: Coord, vs: seq<Coord>, k: nat): bool
    requires k <= |vs|
  {
    if k == 0 then false
    else CrossingParity(p, vs, k - 1) != Crosses(p, vs[k - 1], vs[Prev(|vs|, k - 1)])
  }

  /** An odd number of edge crossings puts the point inside; fewer than three
      vertices never enclose anything. */
  function IsPointInPolygon(p: Coord, vs: seq<Coord>): (inside: bool)
    ensures |vs| < 3 ==> !inside
  {
    |vs| >= 3 && CrossingParity(p, vs, |vs|)
  }

  /** A parity over edges none of which is crossed stays `false`. */
  lemma {:induction false} NoCrossingNoParity(p: Coord, vs: seq<Coord>, k: nat)
    requires k <= |vs|
    requires forall i :: 0 <= i < k ==> !Crosses(p, vs[i], vs[Prev(|vs|, i)])
    ensures !CrossingParity(p, vs, k)
  {
    if k > 0 {
      NoCrossingNoParity(p, vs, k - 1);
    }
  }

  /** A point strictly south of, or on or north of, every vertex is outside:
      no edge straddles its latitude. */
  lemma OutsideLatitudeRangeIsOutside(p: Coord, vs: seq<Coord>)
    requires (forall v :: v in vs ==> v.lat > p.lat) || (forall v :: v in vs ==> v.lat <= p.lat)
    ensures !IsPointInPolygon(p, vs)
  {
    NoCrossingNoParity(p, vs, |vs|);
  }

  /** Where the edge from `a` to `b` meets latitude `y`, it lies between the
      edge's two longitudes, so it is at most their maximum. */
  lemma {:induction false} InterceptBelow(a: Coord, b: Coord, y: real, x: real)
    requires (a.lat > y) != (b.lat > y)
    requires a.lng <= x && b.lng <= x
    ensures (b.lng - a.lng) * (y - a.lat) / (b.lat - a.lat) + a.lng <= x
  {
    var n, d := y - a.lat, b.lat - a.lat;
    assert 0.0 <= n < d || d <= n < 0.0;
    InterpolationBelow(a.lng, b.lng, x, n, d);
  }

  /** Interpolating between two values at most `x`, at a fraction `n / d` of
      the way, stays at most `x`. */
  lemma InterpolationBelow(u: real, v: real, x: real, n: real, d: real)
    requires 0.0 <= n < d || d <= n < 0.0
    requires u <= x && v <= x
    ensures (v - u) * n / d + u <= x
  {
    var t := n / d;
    UnitFraction(n, d);
    ScaleFraction(v - u, n, d);
    assert (v - u) * t + u == (1.0 - t) * u + t * v;
    ScaleBelow(1.0 - t, u, x);
    ScaleBelow(t, v, x);
    assert (v - u) * n / d + u == (1.0 - t) * u + t * v;
    assert (1.0 - t) * x + t * x == x;
  }

  lemma ScaleBelow(k: real, u: real, x: real)
    requires k >= 0.0 && u <= x
    ensures k * u <= k * x
  {
  }

  lemma UnitFraction(n: real, d: real)
    requires 0.0 <= n < d || d <= n < 0.0
    ensures 0.0 <= n / d <= 1.0
  {
    if d > 0.0 {
      FractionInUnit(n, d);
    } else {
      NegateFraction(n, d);
      FractionInUnit(-n, -d);
    }
  }

  lemma NegateFraction(n: real, d: real)
    requires d != 0.0
    ensures (-n) / (-d) == n / d
  {
  }

  lemma ScaleFraction(c: real, n: real, d: real)
    requires d != 0.0
    ensures c * n / d == c * (n / d)
  {
  }

  lemma FractionInUnit(n: real, d: real)
    requires 0.0 <= n <= d && d > 0.0
    ensures 0.0 <= n / d <= 1.0
  {
  }

  /** A point on or east of every vertex is outside: the eastward ray meets no
      edge. */
  lemma EastOfAllVerticesIsOutside(p: Coord, vs: seq<Coord>)
    requires forall v :: v in vs ==> v.lng <= p.lng
    ensures !IsPointInPolygon(p, vs)
  {
    forall i | 0 <= i < |vs|
      ensures !Crosses(p, vs[i], vs[Prev(|vs|, i)])
    {
      var a, b := vs[i], vs[Prev(|vs|, i)];
      if (a.lat > p.lat) != (b.lat > p.lat) {
        InterceptBelow(a, b, p.lat, p.lng);
      }
    }
    NoCrossingNoParity(p, vs, |vs|);
  }

  /** The unit square contains its centre and not a point beyond its east side. */
  lemma UnitSquareContainment()
    ensures IsPointInPolygon(Coord(0.5, 0.5), [Coord(0.0, 0.0), Coord(1.0, 0.0), Coord(1.0, 1.0), Coord(0.0, 1.0)])
    ensures !IsPointInPolygon(Coord(1.5, 0.5), [Coord(0.0, 0.0), Coord(1.0, 0.0), Coord(1.0, 1.0), Coord(0.0, 1.0)])
  {
    var vs := [Coord(0.0, 0.0), Coord(1.0, 0.0), Coord(1.0, 1.0), Coord(0.0, 1.0)];
    var p := Coord(0.5, 0.5);
    assert Prev(4, 0) == 3;
    assert !Crosses(p, vs[0], vs[3]);
    assert !Crosses(p, vs[1], vs[0]);
    assert Crosses(p, vs[2], vs[1]);
    assert !Crosses(p, vs[3], vs[2]);
    assert CrossingParity(p, vs, 4);
    EastOfAllVerticesIsOutside(Coord(1.5, 0.5), vs);
  }

  // ---------------------------------------------------------------------------
  // Location filters

  /** The locations inside the triangle, in their original order. */
  function GetLocationsInTriangle(t: Triangle, locations: seq<MapPoint>): (r: seq<MapPoint>)
    ensures forall x :: x in r <==> x in locations && IsPointInTriangle(x.coordinates, t.vertices)
    ensures IsSubsequence(r, locations)
  {
    Filter(locations, (x: MapPoint) => IsPointInTriangle(x.coordinates, t.vertices))
  }

  /** The locations within the circle's radius of its centre, in order. */
  function GetLocationsInCircle(c: Circle, locations: seq<MapPoint>, dist: DistanceFn): (r: seq<MapPoint>)
    ensures forall x :: x in r <==> x in locations && IsPointInCircle(x.coordinates, c.center, c.radius, dist)
    ensures IsSubsequence(r, locations)
  {
    Filter(locations, (x: MapPoint) => IsPointInCircle(x.coordinates, c.center, c.radius, dist))
  }

  /** The locations inside the polygon, in their original order. */
  function GetLocationsInPolygon(pg: Polygon, locations: seq<MapPoint>): (r: seq<MapPoint>)
    ensures forall x :: x in r <==> x in locations && IsPointInPolygon(x.coordinates, pg.vertices)
    ensures IsSubsequence(r, locations)
  {
    Filter(locations, (x: MapPoint) => IsPointInPolygon(x.coordinates, pg.vertices))
  }

  /** A polygon with fewer than three vertices contains no location. */
  lemma ShortPolygonContainsNothing(pg: Polygon, locations: seq<MapPoint>)
    requires |pg.vertices| < 3
    ensures GetLocationsInPolygon(pg, locations) == []
  {
  }

  // ---------------------------------------------------------------------------
  // Analysis

  datatype AoiType = TriangleAoi | CircleAoi | PolygonAoi

  /** One AOI with the locations it contains. */
  datatype AOIAnalysis = AOIAnalysis(
    id: string,
    name: string,
    aoiType: AoiType,
    color: string,
    createdAt: Timestamp,
    containedLocations: seq<MapPoint>,
    locationCount: nat)

  /** The analysis record keeps the AOI's identity and counts what it contains. */
  predicate Consistent(a: AOIAnalysis) {
    a.locationCount == |a.containedLocations|
  }

  /** The record counts its contents, all of which are input locations. */
  predicate Sound(a: AOIAnalysis, locations: seq<MapPoint>) {
    Consistent(a) && forall x :: x in a.containedLocations ==> x in locations
  }

  function AnalyzeTriangle(t: Triangle, locations: seq<MapPoint>): (a: AOIAnalysis)
    ensures a.id == t.id && a.name == t.name && a.color == t.color && a.createdAt == t.createdAt
    ensures a.aoiType == TriangleAoi && Consistent(a)
    ensures a.containedLocations == GetLocationsInTriangle(t, locations)
  {
    var contained := GetLocationsInTriangle(t, locations);
    AOIAnalysis(t.id, t.name, TriangleAoi, t.color, t.createdAt, contained, |contained|)
  }

  function AnalyzeCircle(c: Circle, locations: seq<MapPoint>, dist: DistanceFn): (a: AOIAnalysis)
    ensures a.id == c.id && a.name == c.name && a.color == c.color && a.createdAt == c.createdAt
    ensures a.aoiType == CircleAoi && Consistent(a)
    ensures a.containedLocations == GetLocationsInCircle(c, locations, dist)
  {
    var contained := GetLocationsInCircle(c, locations, dist);
    AOIAnalysis(c.id, c.name, CircleAoi, c.color, c.createdAt, contained, |contained|)
  }

  function AnalyzePolygon(pg: Polygon, locations: seq<MapPoint>): (a: AOIAnalysis)
    ensures a.id == pg.id && a.name == pg.name && a.color == pg.color && a.createdAt == pg.createdAt
    ensures a.aoiType == PolygonAoi && Consistent(a)
    ensures a.containedLocations == GetLocationsInPolygon(pg, locations)
  {
    var contained := GetLocationsInPolygon(pg, locations);
    AOIAnalysis(pg.id, pg.name, PolygonAoi, pg.color, pg.createdAt, contained, |contained|)
  }

  /** All triangles first, then all circles, then all polygons, each in input
      order. */
  function AnalyzeAllAOIs(triangles: seq<Triangle>, circles: seq<Circle>, polygons: seq<Polygon>,
                          locations: seq<MapPoint>, dist: DistanceFn): (r: seq<AOIAnalysis>)
    ensures |r| == |triangles| + |circles| + |polygons|
    ensures r[..|triangles|] == AnalyzeTriangles(triangles, locations)
    ensures r[|triangles|..|triangles| + |circles|] == AnalyzeCircles(circles, locations, dist)
    ensures r[|triangles| + |circles|..] == AnalyzePolygons(polygons, locations)
  {
    var rt := AnalyzeTriangles(triangles, locations);
    var rc := AnalyzeCircles(circles, locations, dist);
    var rp := AnalyzePolygons(polygons, locations);
    var r := rt + rc + rp;
    assert r[..|rt|] == rt;
    assert r[|rt|..|rt| + |rc|] == rc;
    assert r[|rt| + |rc|..] == rp;
    r
  }

  function AnalyzeTriangles(triangles: seq<Triangle>, locations: seq<MapPoint>): (r: seq<AOIAnalysis>)
    ensures |r| == |triangles|
    ensures forall k :: 0 <= k < |r| ==> r[k] == AnalyzeTriangle(triangles[k], locations)
    ensures forall a :: a in r ==> Sound(a, locations)
  {
    if triangles == [] then [] else [AnalyzeTriangle(triangles[0], locations)] + AnalyzeTriangles(triangles[1..], locations)
  }

  function AnalyzeCircles(circles: seq<Circle>, locations: seq<MapPoint>, dist: DistanceFn): (r: seq<AOIAnalysis>)
    ensures |r| == |circles|
    ensures forall k :: 0 <= k < |r| ==> r[k] == AnalyzeCircle(circles[k], locations, dist)
    ensures forall a :: a in r ==> Sound(a, locations)
  {
    if circles == [] then [] else [AnalyzeCircle(circles[0], locations, dist)] + AnalyzeCircles(circles[1..], locations, dist)
  }

  function AnalyzePolygons(polygons: seq<Polygon>, locations: seq<MapPoint>): (r: seq<AOIAnalysis>)
    ensures |r| == |polygons|
    ensures forall k :: 0 <= k < |r| ==> r[k] == AnalyzePolygon(polygons[k], locations)
    ensures forall a :: a in r ==> Sound(a, locations)
  {
    if polygons == [] then [] else [AnalyzePolygon(polygons[0], locations)] + AnalyzePolygons(polygons[1..], locations)
  }


  /** Every record of an analysis run counts its contents, and only input
      locations are ever reported. */
  lemma AnalyzeAllAOIsSound(triangles: seq<Triangle>, circles: seq<Circle>, polygons: seq<Polygon>,
                            locations: seq<MapPoint>, dist: DistanceFn)
    ensures forall a :: a in AnalyzeAllAOIs(triangles, circles, polygons, locations, dist) ==> Sound(a, locations)
  {
    var rt := AnalyzeTriangles(triangles, locations);
    var rc := AnalyzeCircles(circles, locations, dist);
    var rp := AnalyzePolygons(polygons, locations);
    assert AnalyzeAllAOIs(triangles, circles, polygons, locations, dist) == rt + rc + rp;
  }

  // ---------------------------------------------------------------------------
  // Summary

  /** The summary statistics of a list of analyses. */
  datatype SpatialSummary = SpatialSummary(
    totalAOIs: nat,
    totalLocations: nat,
    emptyAOIs: nat,
    nonEmptyAOIs: nat,
    averageLocationsPerAOI: real,
    mostPopulatedAOI: Option<AOIAnalysis>)

  /** The sum of the `locationCount` fields. */
  function SumCounts(analyses: seq<AOIAnalysis>): nat {
    if analyses == [] then 0 else analyses[0].locationCount + SumCounts(analyses[1..])
  }

  lemma {:induction false} SumCountsAppend(a: seq<AOIAnalysis>, b: seq<AOIAnalysis>)
    ensures SumCounts(a + b) == SumCounts(a) + SumCounts(b)
  {
    if a == [] {
      assert a + b == b;
    } else {
      assert (a + b)[1..] == a[1..] + b;
      SumCountsAppend(a[1..], b);
    }
  }

  /** The index the source's left-to-right `reduce` keeps after looking at the
      first `n` analyses: a strictly larger count replaces the current
      maximum, which starts as a dummy with count 0. */
  function MostPopulatedIndex(analyses: seq<AOIAnalysis>, n: nat): (r: Option<nat>)
    requires n <= |analyses|
    ensures r.None? <==> forall k :: 0 <= k < n ==> analyses[k].locationCount == 0
    ensures r.Some? ==> && r.value < n
                        && analyses[r.value].locationCount > 0
                        && (forall k :: 0 <= k < n ==> analyses[k].locationCount <= analyses[r.value].locationCount)
                        && (forall k :: 0 <= k < r.value ==> analyses[k].locationCount < analyses[r.value].locationCount)
  {
    if n == 0 then None
    else
      var best := MostPopulatedIndex(analyses, n - 1);
      var bestCount := if best.Some? then analyses[best.value].locationCount else 0;
      if analyses[n - 1].locationCount > bestCount then Some(n - 1) else best
  }

  /** The source's `mostPopulatedAOI`: the first analysis with the largest
      count, or nothing when every count is 0. */
  function MostPopulated(analyses: seq<AOIAnalysis>): (m: Option<AOIAnalysis>)
    ensures m.None? <==> forall a :: a in analyses ==> a.locationCount == 0
    ensures m.Some? ==>
              exists k :: && 0 <= k < |analyses|
                          && m.value == analyses[k]
                          && analyses[k].locationCount > 0
                          && (forall j :: 0 <= j < |analyses| ==> analyses[j].locationCount <= analyses[k].locationCount)
                          && (forall j :: 0 <= j < k ==> analyses[j].locationCount < analyses[k].locationCount)
  {
    var best := MostPopulatedIndex(analyses, |analyses|);
    if best.None? then
      assert forall a :: a in analyses ==> a.locationCount == 0 by {
        forall a | a in analyses ensures a.locationCount == 0 {
          var k :| 0 <= k < |analyses| && analyses[k] == a;
        }
      }
      None
    else
      assert analyses[best.value] in analyses;
      Some(analyses[best.value])
  }

  /** `totalLocations / totalAOIs`, or 0 when there are no AOIs. */
  function Average(totalLocations: nat, totalAOIs: nat): (avg: real)
    ensures totalAOIs == 0 ==> avg == 0.0
    ensures totalAOIs > 0 ==> avg * (totalAOIs as real) == totalLocations as real
  {
    DivideBack(totalLocations as real, totalAOIs as real);
    if totalAOIs > 0 then (totalLocations as real) / (totalAOIs as real) else 0.0
  }

  predicate IsEmptyAOI(a: AOIAnalysis) {
    a.locationCount == 0
  }

  /** Totals, empty and non-empty counts, the mean count and the first AOI
      with the largest strictly positive count. */
  function GetSpatialAnalysisSummary(analyses: seq<AOIAnalysis>): (s: SpatialSummary)
    ensures s.totalAOIs == |analyses|
    ensures s.totalLocations == SumCounts(analyses)
    ensures s.emptyAOIs == |Filter(analyses, IsEmptyAOI)|
    ensures s.emptyAOIs + s.nonEmptyAOIs == s.totalAOIs
    ensures s.nonEmptyAOIs == |Filter(analyses, (a: AOIAnalysis) => !IsEmptyAOI(a))|
    ensures s.averageLocationsPerAOI == Average(s.totalLocations, s.totalAOIs)
    ensures s.mostPopulatedAOI == MostPopulated(analyses)
  {
    var total := |analyses|;
    var empty := |Filter(analyses, IsEmptyAOI)|;
    FilterPartition(analyses, IsEmptyAOI, (a: AOIAnalysis) => !IsEmptyAOI(a));
    var totalLocations := SumCounts(analyses);
    SpatialSummary(total, totalLocations, empty, total - empty, Average(totalLocations, total), MostPopulated(analyses))
  }

  lemma DivideBack(x: real, d: real)
    ensures d != 0.0 ==> (x / d) * d == x
  {
  }

  // ---------------------------------------------------------------------------
  // Totals of an analysis run

  /** The number of hits, summed over the triangles. */
  function TriangleHits(triangles: seq<Triangle>, locations: seq<MapPoint>): nat {
    if triangles == [] then 0
    else |GetLocationsInTriangle(triangles[0], locations)| + TriangleHits(triangles[1..], locations)
  }

  function CircleHits(circles: seq<Circle>, locations: seq<MapPoint>, dist: DistanceFn): nat {
    if circles == [] then 0
    else |GetLocationsInCircle(circles[0], locations, dist)| + CircleHits(circles[1..], locations, dist)
  }

  function PolygonHits(polygons: seq<Polygon>, locations: seq<MapPoint>): nat {
    if polygons == [] then 0
    else |GetLocationsInPolygon(polygons[0], locations)| + PolygonHits(polygons[1..], locations)
  }

  /** The summary's location total is the sum, over every AOI, of the number of
      locations the matching filter returns; a location inside two AOIs is
      counted twice. */
  lemma {:induction false} SummaryTotalIsSumOfHits(triangles: seq<Triangle>, circles: seq<Circle>,
                                                   polygons: seq<Polygon>, locations: seq<MapPoint>,
                                                   dist: DistanceFn)
    ensures GetSpatialAnalysisSummary(AnalyzeAllAOIs(triangles, circles, polygons, locations, dist)).totalLocations
            == TriangleHits(triangles, locations) + CircleHits(circles, locations, dist) + PolygonHits(polygons, locations)
  {
    var rt := AnalyzeTriangles(triangles, locations);
    var rc := AnalyzeCircles(circles, locations, dist);
    var rp := AnalyzePolygons(polygons, locations);
    assert AnalyzeAllAOIs(triangles, circles, polygons, locations, dist) == rt + rc + rp;
    SumCountsAppend(rt + rc, rp);
    SumCountsAppend(rt, rc);
    TriangleTotal(triangles, locations);
    CircleTotal(circles, locations, dist);
    PolygonTotal(polygons, locations);
  }

  lemma {:induction false} TriangleTotal(triangles: seq<Triangle>, locations: seq<MapPoint>)
    ensures SumCounts(AnalyzeTriangles(triangles, locations)) == TriangleHits(triangles, locations)
  {
    if triangles != [] {
      TriangleTotal(triangles[1..], locations);
    }
  }

  lemma {:induction false} CircleTotal(circles: seq<Circle>, locations: seq<MapPoint>, dist: DistanceFn)
    ensures SumCounts(AnalyzeCircles(circles, locations, dist)) == CircleHits(circles, locations, dist)
  {
    if circles != [] {
      CircleTotal(circles[1..], locations, dist);
    }
  }

  lemma {:induction false} PolygonTotal(polygons: seq<Polygon>, locations: seq<MapPoint>)
    ensures SumCounts(AnalyzePolygons(polygons, locations)) == PolygonHits(polygons, locations)
  {
    if polygons != [] {
      PolygonTotal(polygons[1..], locations);
    }
  }
}
