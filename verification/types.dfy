/** The entities of the mapping application (src/types/index.ts, plus the
    Polygon and POI records that the drawing tools build). Coordinates are exact
    reals; a `Date` is modelled by its epoch milliseconds. */
module Types {

  import opened Optional

  /** A WGS84 position in the source's `[lng, lat]` order. */
  datatype Coord = Coord(lng: real, lat: real)

  /** Epoch milliseconds standing in for a JavaScript `Date`. */
  type Timestamp = int

  /** One geolocated event mentioned in a message. */
  datatype MapPoint = MapPoint(
    id: string,
    coordinates: Coord,
    labelText: string,  // `label` in the source; a reserved word in Dafny
    messageId: string,
    timestamp: Option<string>,
    context: string)

  /** The fixed-size vertex tuple of a triangle. */
  datatype TriangleVertices = TriangleVertices(v1: Coord, v2: Coord, v3: Coord)

  datatype Triangle = Triangle(
    id: string,
    name: string,
    vertices: TriangleVertices,
    userId: string,
    color: string,
    createdAt: Timestamp)

  /** A circle whose radius is in metres. */
  datatype Circle = Circle(
    id: string,
    name: string,
    center: Coord,
    radius: real,
    userId: string,
    color: string,
    createdAt: Timestamp)

  /** A polygon; the last vertex implicitly connects back to the first. */
  datatype Polygon = Polygon(
    id: string,
    name: string,
    vertices: seq<Coord>,
    userId: string,
    color: string,
    createdAt: Timestamp)

  /** A point of interest placed by the user. */
  datatype POI = POI(
    id: string,
    name: string,
    coordinates: Coord,
    userId: string,
    color: string,
    icon: string,
    category: Option<string>,
    description: Option<string>,
    createdAt: Timestamp)

  /** The locations of one message; `timestamp` keeps the unparsed text. */
  datatype MessageGroup = MessageGroup(
    messageId: string,
    summary: string,
    locations: seq<MapPoint>,
    timestamp: string)

  datatype TriangleValidationResult = TriangleValidationResult(
    valid: bool,
    error: Option<string>,
    area: Option<real>)

  datatype CircleValidationResult = CircleValidationResult(
    valid: bool,
    error: Option<string>,
    radius: Option<real>,
    area: Option<real>)

  datatype PolygonValidationResult = PolygonValidationResult(
    valid: bool,
    error: Option<string>,
    area: Option<real>,
    selfIntersects: Option<bool>)

  datatype POIValidationResult = POIValidationResult(
    valid: bool,
    error: Option<string>,
    coordinates: Option<Coord>)

  function Abs(x: real): (r: real)
    ensures r >= 0.0
    ensures r == x || r == -x
  {
    if x < 0.0 then -x else x
  }
}
