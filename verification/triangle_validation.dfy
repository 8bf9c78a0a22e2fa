/** Triangle area by the shoelace formula, the minimum-size validator and the
    colour policy (src/utils/triangleValidation.ts). */
module TriangleValidation {

  import opened Optional
  import opened Types
  import Palette

  const TRIANGLE_COLORS: seq<string> :=
    ["#4CBACB", "#E74C3C", "#F39C12", "#27AE60", "#8E44AD", "#3498DB"]

  /** Smallest accepted area, in square degrees (about 100 m² at the equator). */
  const MIN_AREA_DEGREES: real := 0.001

  const TRIANGLE_TOO_SMALL: string := "Triangle too small - please draw a larger area"

  /** Cross product of the edge vectors v2 - v1 and v3 - v1: twice the signed
      area, positive when the vertices wind counter-clockwise. */
  function EdgeCross(t: TriangleVertices): real {
    (t.v2.lng - t.v1.lng) * (t.v3.lat - t.v1.lat) - (t.v2.lat - t.v1.lat) * (t.v3.lng - t.v1.lng)
  }

  /** The three vertices lie on one line. */
  predicate Collinear(t: TriangleVertices) {
    EdgeCross(t) == 0.0
  }

  /** 0.5 * |x1(y2-y3) + x2(y3-y1) + x3(y1-y2)|. */
  function TriangleArea(t: TriangleVertices): (area: real)
    ensures area >= 0.0
    ensures 2.0 * area == Abs(EdgeCross(t))
    ensures area == 0.0 <==> Collinear(t)
  {
    var x1, y1, x2, y2, x3, y3 := t.v1.lng, t.v1.lat, t.v2.lng, t.v2.lat, t.v3.lng, t.v3.lat;
    assert (x2 - x1) * (y3 - y1) == x2 * y3 - x2 * y1 - x1 * y3 + x1 * y1;
    assert (y2 - y1) * (x3 - x1) == y2 * x3 - y2 * x1 - y1 * x3 + y1 * x1;
    assert x1 * (y2 - y3) + x2 * (y3 - y1) + x3 * (y1 - y2) == EdgeCross(t);
    Abs(0.5 * (x1 * (y2 - y3) + x2 * (y3 - y1) + x3 * (y1 - y2)))
  }

  /** Rotating the vertex order leaves the area unchanged. */
  lemma TriangleAreaRotate(t: TriangleVertices)
    ensures TriangleArea(TriangleVertices(t.v2, t.v3, t.v1)) == TriangleArea(t)
  {
    assert EdgeCross(TriangleVertices(t.v2, t.v3, t.v1)) == EdgeCross(t);
  }

  /** Reversing the winding negates the signed area but not the area. */
  lemma TriangleAreaReflect(t: TriangleVertices)
    ensures TriangleArea(TriangleVertices(t.v1, t.v3, t.v2)) == TriangleArea(t)
  {
    var A, B := t.v2.lng - t.v1.lng, t.v2.lat - t.v1.lat;
    var C, D := t.v3.lng - t.v1.lng, t.v3.lat - t.v1.lat;
    assert EdgeCross(t) == A * D - B * C;
    assert EdgeCross(TriangleVertices(t.v1, t.v3, t.v2)) == C * B - D * A;
    assert C * B == B * C && D * A == A * D;
  }

  /** All six orderings of the vertices give the same area. */
  lemma TriangleAreaPermutation(a: Coord, b: Coord, c: Coord)
    ensures var area := TriangleArea(TriangleVertices(a, b, c));
      && TriangleArea(TriangleVertices(a, c, b)) == area
      && TriangleArea(TriangleVertices(b, a, c)) == area
      && TriangleArea(TriangleVertices(b, c, a)) == area
      && TriangleArea(TriangleVertices(c, a, b)) == area
      && TriangleArea(TriangleVertices(c, b, a)) == area
  {
    var t := TriangleVertices(a, b, c);
    TriangleAreaReflect(t);
    TriangleAreaRotate(t);
    TriangleAreaRotate(TriangleVertices(b, c, a));
    TriangleAreaReflect(TriangleVertices(b, c, a));
    TriangleAreaReflect(TriangleVertices(c, a, b));
  }

  /** The points (0,0), (1,0), (2,0) enclose no area. */
  lemma CollinearExampleHasZeroArea()
    ensures TriangleArea(TriangleVertices(Coord(0.0, 0.0), Coord(1.0, 0.0), Coord(2.0, 0.0))) == 0.0
  {
    assert Collinear(TriangleVertices(Coord(0.0, 0.0), Coord(1.0, 0.0), Coord(2.0, 0.0)));
  }

  /** Rejects a triangle whose area is below MIN_AREA_DEGREES; both outcomes
      report the area. */
  function ValidateTriangle(t: TriangleVertices): (r: TriangleValidationResult)
    ensures r.valid <==> TriangleArea(t) >= MIN_AREA_DEGREES
    ensures r.area == Some(TriangleArea(t))
    ensures r.error.Some? <==> !r.valid
    ensures !r.valid ==> r.error == Some(TRIANGLE_TOO_SMALL)
    ensures r.valid ==> !Collinear(t)
  {
    var area := TriangleArea(t);
    if area < MIN_AREA_DEGREES then
      TriangleValidationResult(false, Some(TRIANGLE_TOO_SMALL), Some(area))
    else
      TriangleValidationResult(true, None, Some(area))
  }

  /** A triangle whose area is exactly the threshold is accepted. */
  lemma ThresholdAreaIsAccepted()
    ensures var t := TriangleVertices(Coord(0.0, 0.0), Coord(0.1, 0.0), Coord(0.0, 0.02));
      TriangleArea(t) == MIN_AREA_DEGREES && ValidateTriangle(t).valid
  {
    var t := TriangleVertices(Coord(0.0, 0.0), Coord(0.1, 0.0), Coord(0.0, 0.02));
    assert EdgeCross(t) == 0.002;
  }

  /** The colour of the triangle drawn after `count` existing ones. */
  function AssignTriangleColor(count: nat): (color: string)
    ensures color in TRIANGLE_COLORS
    ensures count < |TRIANGLE_COLORS| ==> color == TRIANGLE_COLORS[count]
    ensures color == AssignTriangleColor(count % |TRIANGLE_COLORS|)
  {
    Palette.Cycle(TRIANGLE_COLORS, count)
  }
}
