/** Point-of-interest rules (src/utils/poiValidation.ts): coordinate and name
    validation with 5-decimal rounding, colour and icon assignment, the
    minimum-spacing check against existing POIs and snapping to nearby
    targets. Distances come from the `dist` parameter of module Distance. */
module PoiValidation {

  import opened Optional
  import opened Types
  import opened Distance
  import opened Text
  import Palette

  const POI_COLORS: seq<string> :=
    ["#4CBACB", "#E74C3C", "#F39C12", "#27AE60", "#8E44AD", "#3498DB"]

  const POI_ICONS: seq<string> :=
    ["marker", "flag", "star", "home", "building", "camera", "shopping-bag", "coffee", "car", "plane"]

  const POI_CATEGORIES: seq<string> :=
    ["general", "business", "transportation", "entertainment", "food",
     "shopping", "government", "emergency", "education", "healthcare"]

  /** The icon each known category gets. */
  const CATEGORY_ICONS: map<string, string> := map[
    "general" := "marker",
    "business" := "building",
    "transportation" := "car",
    "entertainment" := "star",
    "food" := "coffee",
    "shopping" := "shopping-bag",
    "government" := "flag",
    "emergency" := "plus",
    "education" := "graduation-cap",
    "healthcare" := "heart"]

  const LONGITUDE_ERROR: string := "Longitude must be between -180 and 180 degrees"
  const LATITUDE_ERROR: string := "Latitude must be between -90 and 90 degrees"
  const NAME_EMPTY_ERROR: string := "POI name cannot be empty"
  const NAME_TOO_LONG_ERROR: string := "POI name must be less than 100 characters"

  /** The longest accepted name; the message says "less than 100", but a
      name of exactly 100 characters passes. */
  const MAX_NAME_LENGTH: nat := 100

  /** The category `assignPOIIcon` assumes when none is given. */
  const DEFAULT_CATEGORY: string := "general"

  /** Default spacing of `validatePOILocation` and snapping radius of
      `snapPOICoordinates`, in metres; every caller in the application uses them. */
  const DEFAULT_MINIMUM_DISTANCE: real := 10.0
  const DEFAULT_SNAP_DISTANCE: real := 20.0

  /** 10^5: coordinates are kept to five decimals (about one metre). */
  const PRECISION_SCALE: real := 100000.0

  // ---------------------------------------------------------------------------
  // Coordinate rounding

  /** `Math.round(x * 10^5) / 10^5`. */
  function Round5(x: real): (r: real)
    ensures x - 0.000005 < r <= x + 0.000005
    ensures (r * PRECISION_SCALE).Floor as real == r * PRECISION_SCALE
  {
    (Round(x * PRECISION_SCALE) as real) / PRECISION_SCALE
  }

  /** A rounded value is already rounded. */
  lemma Round5Idempotent(x: real)
    ensures Round5(Round5(x)) == Round5(x)
  {
    var n := Round(x * PRECISION_SCALE);
    assert Round5(x) * PRECISION_SCALE == n as real;
    assert (n as real + 0.5).Floor == n;
  }

  /** Rounding never reverses the order of two values. */
  lemma Round5Monotonic(x: real, y: real)
    requires x <= y
    ensures Round5(x) <= Round5(y)
  {
    var a, b := Round(x * PRECISION_SCALE), Round(y * PRECISION_SCALE);
    assert x * PRECISION_SCALE + 0.5 <= y * PRECISION_SCALE + 0.5;
    FloorMonotonic(x * PRECISION_SCALE + 0.5, y * PRECISION_SCALE + 0.5);
    assert a <= b;
    assert (a as real) / PRECISION_SCALE <= (b as real) / PRECISION_SCALE;
  }

  lemma FloorMonotonic(u: real, v: real)
    requires u <= v
    ensures u.Floor <= v.Floor
  {
  }

  /** Values that are already whole multiples of 10^-5 are left alone; in
      particular the range limits are. */
  lemma Round5Fixes(n: int)
    ensures Round5((n as real) / PRECISION_SCALE) == (n as real) / PRECISION_SCALE
  {
    assert ((n as real) / PRECISION_SCALE) * PRECISION_SCALE == n as real;
    assert (n as real + 0.5).Floor == n;
  }

  // ---------------------------------------------------------------------------
  // validatePOI

  /** A present name (a non-empty string is truthy) made only of whitespace. */
  predicate BlankName(name: string) {
    |name| > 0 && |Trim(name)| == 0
  }

  /** Checks longitude, then latitude, then the name; on success returns the
      coordinates rounded to five decimals. */
  function ValidatePOI(coordinates: Coord, name: string): (r: POIValidationResult)
    ensures r.valid <==> && -180.0 <= coordinates.lng <= 180.0
                         && -90.0 <= coordinates.lat <= 90.0
                         && !BlankName(name)
                         && |name| <= MAX_NAME_LENGTH
    ensures !(-180.0 <= coordinates.lng <= 180.0) ==> r.error == Some(LONGITUDE_ERROR)
    ensures -180.0 <= coordinates.lng <= 180.0 && !(-90.0 <= coordinates.lat <= 90.0)
            ==> r.error == Some(LATITUDE_ERROR)
    ensures -180.0 <= coordinates.lng <= 180.0 && -90.0 <= coordinates.lat <= 90.0 && BlankName(name)
            ==> r.error == Some(NAME_EMPTY_ERROR)
    ensures -180.0 <= coordinates.lng <= 180.0 && -90.0 <= coordinates.lat <= 90.0 && !BlankName(name)
            && |name| > MAX_NAME_LENGTH
            ==> r.error == Some(NAME_TOO_LONG_ERROR)
    ensures !r.valid ==> r.error.Some? && r.coordinates.None?
    ensures r.valid ==> && r.error.None?
                        && r.coordinates == Some(Coord(Round5(coordinates.lng), Round5(coordinates.lat)))
  {
    var lng, lat := coordinates.lng, coordinates.lat;
    if lng < -180.0 || lng > 180.0 then
      POIValidationResult(false, Some(LONGITUDE_ERROR), None)
    else if lat < -90.0 || lat > 90.0 then
      POIValidationResult(false, Some(LATITUDE_ERROR), None)
    else if |name| > 0 && |Trim(name)| == 0 then
      POIValidationResult(false, Some(NAME_EMPTY_ERROR), None)
    else if |name| > 0 && |name| > MAX_NAME_LENGTH then
      POIValidationResult(false, Some(NAME_TOO_LONG_ERROR), None)
    else
      POIValidationResult(true, None, Some(Coord(Round5(lng), Round5(lat))))
  }

  /** Accepted coordinates stay within 10^-5 / 2 of the input in each axis. */
  lemma ValidatedCoordinatesAreClose(coordinates: Coord, name: string)
    requires ValidatePOI(coordinates, name).valid
    ensures var c := ValidatePOI(coordinates, name).coordinates.value;
            && Abs(c.lng - coordinates.lng) <= 0.000005
            && Abs(c.lat - coordinates.lat) <= 0.000005
  {
  }

  /** Validating the coordinates a successful validation returned accepts
      them unchanged. */
  lemma ValidatePOIIdempotent(coordinates: Coord, name: string)
    requires ValidatePOI(coordinates, name).valid
    ensures var c := ValidatePOI(coordinates, name).coordinates.value;
            ValidatePOI(c, name) == ValidatePOI(coordinates, name)
  {
    var c := ValidatePOI(coordinates, name).coordinates.value;
    Round5Fixes(-18000000);
    Round5Fixes(18000000);
    Round5Fixes(-9000000);
    Round5Fixes(9000000);
    Round5Monotonic(-180.0, coordinates.lng);
    Round5Monotonic(coordinates.lng, 180.0);
    Round5Monotonic(-90.0, coordinates.lat);
    Round5Monotonic(coordinates.lat, 90.0);
    Round5Idempotent(coordinates.lng);
    Round5Idempotent(coordinates.lat);
  }

  /** A whitespace-only name is rejected, the empty (absent) name is not, and
      101 characters are too many. */
  lemma NameRules(coordinates: Coord, name: string)
    requires -180.0 <= coordinates.lng <= 180.0 && -90.0 <= coordinates.lat <= 90.0
    ensures ValidatePOI(coordinates, "").valid
    ensures ValidatePOI(coordinates, "   ").error == Some(NAME_EMPTY_ERROR)
    ensures |name| == 101 && name[0] == 'a' ==> ValidatePOI(coordinates, name).error == Some(NAME_TOO_LONG_ERROR)
  {
    TrimEmptyIffAllWhitespace("   ");
    if |name| == 101 && name[0] == 'a' {
      TrimEmptyIffAllWhitespace(name);
      assert !IsWhitespace(name[0]);
    }
  }

  /** Five-decimal rounding of a sample coordinate: halves and beyond round
      up, also for negative values. */
  lemma RoundingExample()
    ensures Round5(-0.123456789) == -0.12346
    ensures Round5(51.507654321) == 51.50765
  {
    assert Round(-0.123456789 * PRECISION_SCALE) == -12346;
    assert Round(51.507654321 * PRECISION_SCALE) == 5150765;
  }

  // ---------------------------------------------------------------------------
  // Colours and icons

  function AssignPOIColor(count: nat): (color: string)
    ensures color in POI_COLORS
    ensures count < |POI_COLORS| ==> color == POI_COLORS[count]
    ensures color == AssignPOIColor(count % |POI_COLORS|)
  {
    Palette.Cycle(POI_COLORS, count)
  }

  /** The category's own icon when it has one, else the count-cycled icon. */
  function AssignPOIIcon(category: string, count: nat): (icon: string)
    ensures category in CATEGORY_ICONS ==> icon == CATEGORY_ICONS[category]
    ensures category !in CATEGORY_ICONS ==> icon == POI_ICONS[count % |POI_ICONS|]
    ensures icon in POI_ICONS || icon in CATEGORY_ICONS.Values
  {
    if category in CATEGORY_ICONS then CATEGORY_ICONS[category]
    else Palette.Cycle(POI_ICONS, count)
  }

  /** Every listed category has its own icon, so the count only matters for
      unknown categories, where the icons repeat every ten POIs. */
  lemma IconAssignment(category: string, count: nat, k: nat)
    ensures category in POI_CATEGORIES ==> AssignPOIIcon(category, count) == AssignPOIIcon(category, 0)
    ensures category !in POI_CATEGORIES ==>
              AssignPOIIcon(category, count + k * |POI_ICONS|) == AssignPOIIcon(category, count)
  {
    CategoriesAreMapped();
    Palette.CyclePeriodic(POI_ICONS, count, k);
  }

  /** The category list and the icon map's keys are the same set. */
  lemma CategoriesAreMapped()
    ensures forall c :: c in POI_CATEGORIES <==> c in CATEGORY_ICONS
  {
  }

  /** The lists behind getPOICategories, getPOIIcons and getPOIColors. */
  function GetPOICategories(): (r: seq<string>)
    ensures forall c :: c in r <==> c in CATEGORY_ICONS
    ensures |r| == 10
  {
    POI_CATEGORIES
  }

  function GetPOIIcons(): (r: seq<string>)
    ensures |r| == 10
    ensures forall k :: 0 <= k < 10 ==> r[k] == AssignPOIIcon("", k)
  {
    POI_ICONS
  }

  function GetPOIColors(): (r: seq<string>)
    ensures |r| == 6
    ensures forall k :: 0 <= k < 6 ==> r[k] == AssignPOIColor(k)
  {
    POI_COLORS
  }

  // ---------------------------------------------------------------------------
  // Spacing check

  /** The outcome of the spacing check. */
  datatype LocationCheck = LocationCheck(valid: bool, error: Option<string>, nearbyPOI: Option<POI>)

  /** The message naming the POI that is too close and the rounded distance. */
  function TooCloseMessage(poiName: string, distance: real): string {
    "POI too close to existing POI \"" + poiName + "\" (" + IntToString(Round(distance)) + "m away)"
  }

  /** Scans the existing POIs in order and reports the first one strictly
      closer than `minimumDistance`; with none, the location is valid. */
  method ValidatePOILocation(newCoordinates: Coord, existing: seq<POI>, minimumDistance: real, dist: DistanceFn)
    returns (r: LocationCheck)
    ensures r.valid <==> forall k :: 0 <= k < |existing| ==> dist(newCoordinates, existing[k].coordinates) >= minimumDistance
    ensures r.valid ==> r.error.None? && r.nearbyPOI.None?
    ensures !r.valid ==>
              exists k :: && 0 <= k < |existing|
                          && dist(newCoordinates, existing[k].coordinates) < minimumDistance
                          && (forall j :: 0 <= j < k ==> dist(newCoordinates, existing[j].coordinates) >= minimumDistance)
                          && r.nearbyPOI == Some(existing[k])
                          && r.error == Some(TooCloseMessage(existing[k].name, dist(newCoordinates, existing[k].coordinates)))
    ensures IsDistance(dist) && minimumDistance > 0.0
            && (exists k :: 0 <= k < |existing| && existing[k].coordinates == newCoordinates)
            ==> !r.valid
  {
    var i := 0;
    while i < |existing|
      invariant 0 <= i <= |existing|
      invariant forall j :: 0 <= j < i ==> dist(newCoordinates, existing[j].coordinates) >= minimumDistance
    {
      var poi := existing[i];
      var distance := dist(newCoordinates, poi.coordinates);
      if distance < minimumDistance {
        return LocationCheck(false, Some(TooCloseMessage(poi.name, distance)), Some(poi));
      }
      i := i + 1;
    }
    return LocationCheck(true, None, None);
  }

  // ---------------------------------------------------------------------------
  // Snapping

  /** The snapped (or original) coordinates and the target used, if any. */
  datatype SnapResult = SnapResult(coordinates: Coord, snapped: bool, snapTarget: Option<Coord>)

  /** Moves the point onto the first target within `snapDistance` (inclusive);
      with none, returns the point unchanged. */
  method SnapPOICoordinates(coordinates: Coord, targets: seq<Coord>, snapDistance: real, dist: DistanceFn)
    returns (r: SnapResult)
    ensures r.snapped <==> exists k :: 0 <= k < |targets| && dist(coordinates, targets[k]) <= snapDistance
    ensures !r.snapped ==> r.coordinates == coordinates && r.snapTarget.None?
    ensures r.snapped ==>
              exists k :: && 0 <= k < |targets|
                          && dist(coordinates, targets[k]) <= snapDistance
                          && (forall j :: 0 <= j < k ==> dist(coordinates, targets[j]) > snapDistance)
                          && r.coordinates == targets[k]
                          && r.snapTarget == Some(targets[k])
    ensures IsDistance(dist) && snapDistance >= 0.0 && coordinates in targets ==> r.snapped
  {
    var i := 0;
    while i < |targets|
      invariant 0 <= i <= |targets|
      invariant forall j :: 0 <= j < i ==> dist(coordinates, targets[j]) > snapDistance
    {
      var target := targets[i];
      if dist(coordinates, target) <= snapDistance {
        return SnapResult(target, true, Some(target));
      }
      i := i + 1;
    }
    return SnapResult(coordinates, false, None);
  }
}
