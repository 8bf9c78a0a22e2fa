/** Radius limits, the circle validator and the colour policy
    (src/utils/circleValidation.ts). The Haversine `calculateDistance` of that
    file is the `dist` parameter of module Distance. */
module CircleValidation {

  import opened Optional
  import opened Types
  import Palette

  /** Radius limits in metres, both inclusive. */
  const CIRCLE_MIN_RADIUS: real := 10.0
  const CIRCLE_MAX_RADIUS: real := 50000.0

  const CIRCLE_COLORS: seq<string> :=
    ["#4CBACB", "#E74C3C", "#F39C12", "#27AE60", "#8E44AD", "#3498DB"]

  /** JavaScript's `Math.PI`, written as the decimal of the double. */
  const PI: real := 3.141592653589793

  /** The messages interpolate the limits: 10 m and 50000 / 1000 = 50 km. */
  const CIRCLE_TOO_SMALL: string := "Circle too small - minimum radius is 10m"
  const CIRCLE_TOO_LARGE: string := "Circle too large - maximum radius is 50km"

  /** Checks the lower limit, then the upper one; the centre is not consulted. */
  function ValidateCircle(center: Coord, radius: real): (r: CircleValidationResult)
    ensures r.valid <==> CIRCLE_MIN_RADIUS <= radius <= CIRCLE_MAX_RADIUS
    ensures r.radius == Some(radius)
    ensures radius < CIRCLE_MIN_RADIUS ==> r.error == Some(CIRCLE_TOO_SMALL) && r.area.None?
    ensures radius > CIRCLE_MAX_RADIUS ==> r.error == Some(CIRCLE_TOO_LARGE) && r.area.None?
    ensures r.valid ==> r.error.None? && r.area == Some(PI * radius * radius) && r.area.value > 0.0
  {
    if radius < CIRCLE_MIN_RADIUS then
      CircleValidationResult(false, Some(CIRCLE_TOO_SMALL), Some(radius), None)
    else if radius > CIRCLE_MAX_RADIUS then
      CircleValidationResult(false, Some(CIRCLE_TOO_LARGE), Some(radius), None)
    else
      var area := PI * radius * radius;
      assert radius * radius > 0.0;
      CircleValidationResult(true, None, Some(radius), Some(area))
  }

  /** The verdict depends only on the radius. */
  lemma ValidateCircleIgnoresCenter(c1: Coord, c2: Coord, radius: real)
    ensures ValidateCircle(c1, radius) == ValidateCircle(c2, radius)
  {
  }

  /** Both limits are accepted; 9 m is rejected as too small. */
  lemma RadiusLimitsInclusive(center: Coord)
    ensures ValidateCircle(center, CIRCLE_MIN_RADIUS).valid
    ensures ValidateCircle(center, CIRCLE_MAX_RADIUS).valid
    ensures ValidateCircle(center, 9.0).error == Some(CIRCLE_TOO_SMALL)
  {
  }

  /** The colour of the circle drawn after `count` existing ones. */
  function AssignCircleColor(count: nat): (color: string)
    ensures color in CIRCLE_COLORS
    ensures count < |CIRCLE_COLORS| ==> color == CIRCLE_COLORS[count]
    ensures color == AssignCircleColor(count % |CIRCLE_COLORS|)
  {
    Palette.Cycle(CIRCLE_COLORS, count)
  }
}
