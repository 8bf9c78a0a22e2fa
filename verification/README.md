# wisery-maps geometry and policy core, in Dafny

This project models the pure logic in `src/utils` of the wisery-maps mapping
application:

- **Shape validators.** Shoelace areas of triangles and polygons. The
  orientation-based segment intersection test and the self-intersection scan.
  The ordered, first-failure-wins validators for triangles, circles and
  polygons. Count-cycled colours.
- **Spatial analysis.**
  - Containment tests: barycentric point-in-triangle with its degenerate guard,
    point-in-circle over a distance function, and even-odd ray casting for
    polygons.
  - The three location filters built on those tests.
  - `analyzeAllAOIs` and its summary statistics.
- **POI policies.** Coordinate and name validation with five-decimal
  rounding. The first-conflict spacing check and first-match snapping.
  Category icons with a count-cycled fallback.
- **Clustering helpers.** The configuration constants, `shouldCluster`,
  `getClusteringDistance` and the GeoJSON conversion of map points.
- **Event data queries.** Flattening conversations into map points. Lookups
  by conversation and by message. The inclusive bounding-box filter and the
  London / international split.

Coordinates are exact `real`s in the source's `[lng, lat]` order. The
Haversine distance, which appears three times in the source, is one
function-valued parameter `dist`. Only three facts about it are used, collected
in `Distance.IsDistance`:

- it is non-negative;
- it is symmetric;
- it is zero between a point and itself.

The event data set is a parameter of every query rather than an imported JSON
file.

The source's default arguments are named constants, which callers pass
explicitly:

- `PoiValidation.DEFAULT_MINIMUM_DISTANCE`: the 10 m spacing of `validatePOILocation`;
- `PoiValidation.DEFAULT_SNAP_DISTANCE`: the 20 m radius of `snapPOICoordinates`;
- `PoiValidation.DEFAULT_CATEGORY`: the `"general"` category of `assignPOIIcon`, whose count defaults to 0;
- `PolygonValidation.DEFAULT_NEARBY_THRESHOLD`: the 0.001 degree threshold of `isPointNearby`.

Modules, one per source file plus shared pieces:

| module | file | models |
|---|---|---|
| `Optional` | optional.dfy | optional fields and `null` results |
| `Types` | types.dfy | the records of `src/types/index.ts`, plus the `Polygon`, `POI` and validation-result records used by the utilities |
| `Distance` | distance.dfy | the distance parameter and its facts |
| `Palette` | palette.dfy | `TABLE[count % TABLE.length]` |
| `Seqs` | seqs.dfy | `Array.prototype.filter` and `map` |
| `Text` | text.dfy | `String.prototype.trim`, `Math.round`, and integers rendered in template literals |
| `TriangleValidation` | triangle_validation.dfy | `triangleValidation.ts` |
| `CircleValidation` | circle_validation.dfy | `circleValidation.ts` |
| `PolygonValidation` | polygon_validation.dfy | `polygonValidation.ts` |
| `SpatialAnalysis` | spatial_analysis.dfy | `spatialAnalysis.ts` |
| `PoiValidation` | poi_validation.dfy | `poiValidation.ts` |
| `PointClustering` | point_clustering.dfy | `pointClustering.ts` |
| `MockDataLoader` | mock_data_loader.dfy | `mockDataLoader.ts` |

## Model

| member | source | states |
|---|---|---|
| Palette.Cycle | src/utils/triangleValidation.ts:47-49 | the chosen entry is in the table, and for a count below the table's length it is that entry |
| Palette.CyclePeriodic | src/utils/circleValidation.ts:51-53 | the choice repeats with the table's length as period, for any multiple of the period |
| Seqs.Filter | src/utils/spatialAnalysis.ts:109-111 | the result holds exactly the elements of the input that satisfy the predicate, as an in-order subsequence, and is no longer than the input |
| Seqs.FilterAppend | src/utils/spatialAnalysis.ts:109-111 | filtering distributes over concatenation |
| Seqs.FilterMultiplicity | src/utils/spatialAnalysis.ts:109-111 | a kept element keeps every one of its occurrences; a dropped one keeps none |
| Seqs.FilterPartition | src/utils/mockDataLoader.ts:164-167 | filtering by a predicate and by its negation splits the input: multisets add up, lengths add up, the two results are disjoint |
| Seqs.Map | src/utils/pointClustering.ts:39-46 | one image per element, in order |
| Text.TrimStart | src/utils/poiValidation.ts:89 | the result is a suffix of the input that starts with a non-whitespace character, and everything dropped is whitespace |
| Text.TrimEnd | src/utils/poiValidation.ts:89 | the result is a prefix of the input that ends with a non-whitespace character, and everything dropped is whitespace |
| Text.Trim | src/utils/poiValidation.ts:89 | the result is one infix of the input; every character cut off before or after it is whitespace; the result neither starts nor ends with whitespace |
| Text.TrimEmptyIffAllWhitespace | src/utils/poiValidation.ts:89 | `name.trim().length === 0` exactly when every character of the name is whitespace |
| Text.NatToString | src/utils/poiValidation.ts:175 | a non-empty numeral of decimal digits without a leading zero |
| Text.NatToStringRoundTrip | src/utils/poiValidation.ts:175 | reading the numeral back gives the number |
| Text.IntToString | src/utils/poiValidation.ts:175 | a leading minus sign exactly for negative numbers, followed by the numeral of the magnitude |
| Text.Round | src/utils/poiValidation.ts:85-86 | `Math.round` lands within half a unit of its argument, halves going up |
| TriangleValidation.TriangleArea | src/utils/triangleValidation.ts:18-21 | the area is non-negative, equals half the magnitude of the edge cross product, and is 0 exactly for collinear vertices |
| TriangleValidation.TriangleAreaRotate | src/utils/triangleValidation.ts:18-21 | rotating the vertex order keeps the area |
| TriangleValidation.TriangleAreaReflect | src/utils/triangleValidation.ts:18-21 | reversing the winding keeps the area |
| TriangleValidation.TriangleAreaPermutation | src/utils/triangleValidation.ts:18-21 | all six vertex orders give the same area |
| TriangleValidation.CollinearExampleHasZeroArea | src/utils/triangleValidation.test.ts:31-39 | (0,0), (1,0), (2,0) have area 0 |
| TriangleValidation.ValidateTriangle | src/utils/triangleValidation.ts:26-42 | valid exactly when the area is at least 0.001; the area is reported either way; an error appears exactly on rejection and is the "too small" message; a valid triangle is not collinear |
| TriangleValidation.ThresholdAreaIsAccepted | src/utils/triangleValidation.test.ts:94-105 | a triangle of area exactly 0.001 is accepted |
| TriangleValidation.AssignTriangleColor | src/utils/triangleValidation.ts:47-49 | the colour is one of the six, the first six counts take them in order, and the choice depends only on the count modulo 6 |
| CircleValidation.ValidateCircle | src/utils/circleValidation.ts:21-46 | valid exactly for 10 <= radius <= 50000; below: "too small", above: "too large", no area in either case; the radius is always echoed back; when valid, no error and area PI * r * r > 0 |
| CircleValidation.ValidateCircleIgnoresCenter | src/utils/circleValidation.ts:21 | the verdict does not depend on the centre |
| CircleValidation.RadiusLimitsInclusive | src/utils/circleValidation.test.ts:48-64 | both radius limits are accepted; 9 m is too small |
| CircleValidation.AssignCircleColor | src/utils/circleValidation.ts:51-53 | the colour is one of the six, taken in order, periodic modulo 6 |
| PolygonValidation.PolygonArea | src/utils/polygonValidation.ts:21-34 | the area is non-negative, and 0 for fewer than three vertices |
| PolygonValidation.ShoelaceSumIsClosedSum | src/utils/polygonValidation.ts:27-31 | the loop's wrap-around sum equals the sum over the closed boundary path |
| PolygonValidation.PolygonAreaReverse | src/utils/polygonValidation.ts:21-34 | listing the vertices in reverse keeps the area |
| PolygonValidation.PolygonAreaRotate | src/utils/polygonValidation.ts:27-31 | starting the listing at the next vertex keeps the area |
| PolygonValidation.PolygonAreaOfTriangle | src/utils/polygonValidation.ts:21-34 | on three vertices the polygon area equals the triangle area |
| PolygonValidation.UnitSquareArea | src/utils/polygonValidation.ts:21-34 | the unit square has area 1 in both windings |
| PolygonValidation.AreaOfClosedSum | src/utils/polygonValidation.ts:33 | the area is half the magnitude of the closed-boundary sum |
| PolygonValidation.Orient | src/utils/polygonValidation.ts:52-56 | collinear exactly when the determinant's magnitude is below 1e-10; clockwise means a positive determinant, counter-clockwise a negative one |
| PolygonValidation.OrientationIsSignedArea | src/utils/polygonValidation.ts:53 | the orientation determinant is minus twice the signed triangle area |
| PolygonValidation.OrientationSymmetries | src/utils/polygonValidation.ts:52-56 | rotating the triple keeps the orientation; swapping two points flips it |
| PolygonValidation.SegmentsIntersectSymmetric | src/utils/polygonValidation.ts:44-79 | the intersection test ignores which segment comes first and the direction of a segment |
| PolygonValidation.SharedEndpointIntersects | src/utils/polygonValidation.ts:73-76 | segments sharing an endpoint always intersect, which is why adjacent edges are skipped |
| PolygonValidation.OnSegment | src/utils/polygonValidation.ts:59-62 | the point lies inside the axis-aligned bounding box of the segment, borders included; used only for collinear triples |
| PolygonValidation.SegmentsIntersect | src/utils/polygonValidation.ts:44-79 | the segments intersect when the orientations differ on both sides, or in one of the four collinear-and-on-segment cases; SegmentsIntersectSymmetric and SharedEndpointIntersects state its properties |
| PolygonValidation.SelfIntersects | src/utils/polygonValidation.ts:86-109 | the reference for the scan: some edge i and some edge j >= i + 2 intersect, the first and the closing edge excepted; CheckSelfIntersection is proved equal to it |
| PolygonValidation.FewVerticesNeverSelfIntersect | src/utils/polygonValidation.ts:88 | fewer than four vertices never self-intersect |
| PolygonValidation.CheckSelfIntersection | src/utils/polygonValidation.ts:86-109 | the nested scan returns true exactly when some pair of non-adjacent edges intersects |
| PolygonValidation.BowtieSelfIntersects | src/utils/polygonValidation.test.ts:54-62 | the bowtie [[0,0],[1,1],[1,0],[0,1]] self-intersects |
| PolygonValidation.CrossedQuadrilateral | src/utils/polygonValidation.ts:91-104 | a quadrilateral whose first and third edges meet self-intersects |
| PolygonValidation.SquareDoesNotSelfIntersect | src/utils/polygonValidation.test.ts:50-51 | the unit square does not self-intersect |
| PolygonValidation.ValidatePolygon | src/utils/polygonValidation.ts:116-151 | in order: too few vertices (no area, no flag), self-intersection (flag true), area below 0.001 (area and flag false), else valid; valid exactly when all three checks pass |
| PolygonValidation.AssignPolygonColor | src/utils/polygonValidation.ts:158-160 | the colour is one of the six, taken in order, periodic modulo 6 |
| PolygonValidation.IsPointNearby | src/utils/polygonValidation.ts:169-178 | near when the squared Euclidean distance in degrees is at most the squared non-negative threshold; the default threshold is 0.001 degrees; IsPointNearbyMatchesSqrt ties it to the source's square root |
| PolygonValidation.IsPointNearbyMatchesSqrt | src/utils/polygonValidation.ts:169-178 | for the non-negative square root s of dx^2 + dy^2, the square-free predicate holds exactly when s <= threshold |
| PolygonValidation.IsPointNearbyProperties | src/utils/polygonValidation.ts:169-178 | nearness is symmetric; a point is near itself and a point exactly one threshold away, for any non-negative threshold |
| SpatialAnalysis.IsPointInTriangle | src/utils/spatialAnalysis.ts:33-54 | a degenerate triangle contains nothing; otherwise inside exactly when the weights a and b are non-negative and a + b <= 1, the third weight being 1 - a - b |
| SpatialAnalysis.DenominatorIsEdgeCross | src/utils/spatialAnalysis.ts:41 | the barycentric denominator is twice the signed triangle area |
| SpatialAnalysis.ValidTriangleIsNotDegenerate | src/utils/spatialAnalysis.ts:43-46 | a triangle that passes validation is never treated as degenerate |
| SpatialAnalysis.WeightsOfMix | src/utils/spatialAnalysis.ts:48-49 | the weights computed for a mix of the vertices are the mixing weights |
| SpatialAnalysis.MixOfWeights | src/utils/spatialAnalysis.ts:48-50 | mixing the vertices with a point's own weights gives back the point |
| SpatialAnalysis.InsideIffConvexCombination | src/utils/spatialAnalysis.ts:33-54 | for a non-degenerate triangle, inside exactly when the point is a convex combination of the vertices |
| SpatialAnalysis.VerticesAreInside | src/utils/spatialAnalysis.test.ts:82-87 | the vertices of a non-degenerate triangle are inside, so the boundary counts |
| SpatialAnalysis.CollinearContainsNothing | src/utils/spatialAnalysis.test.ts:89-94 | a collinear triangle contains no point, not even its vertices |
| SpatialAnalysis.IsPointInCircle | src/utils/spatialAnalysis.ts:63-70 | inside when the distance from the point to the centre is at most the radius; CircleContainment states its properties |
| SpatialAnalysis.CircleContainment | src/utils/spatialAnalysis.ts:63-70 | the centre is inside any circle of non-negative radius, and a larger radius contains everything a smaller one does |
| SpatialAnalysis.Crosses | src/utils/spatialAnalysis.ts:88-91 | the edge straddles the point's latitude (one end strictly above it, the other not) and meets the eastward ray strictly east of the point |
| SpatialAnalysis.CrossingParity | src/utils/spatialAnalysis.ts:85-96 | the value of `inside` after the first k loop iterations, each edge pairing vertex i with its predecessor, vertex 0 with the last |
| SpatialAnalysis.IsPointInPolygon | src/utils/spatialAnalysis.ts:78-97 | fewer than three vertices contain nothing |
| SpatialAnalysis.NoCrossingNoParity | src/utils/spatialAnalysis.ts:85-96 | with no edge crossed, the parity stays "outside" |
| SpatialAnalysis.OutsideLatitudeRangeIsOutside | src/utils/spatialAnalysis.ts:91 | a point south of all vertices, or level with or north of all of them, is outside |
| SpatialAnalysis.InterceptBelow | src/utils/spatialAnalysis.ts:91 | where an edge straddling the ray's latitude meets it, it is no further east than the edge's eastmost end |
| SpatialAnalysis.EastOfAllVerticesIsOutside | src/utils/spatialAnalysis.ts:78-97 | a point on or east of every vertex is outside |
| SpatialAnalysis.UnitSquareContainment | src/utils/spatialAnalysis.ts:78-97 | the unit square contains its centre and not a point east of it |
| SpatialAnalysis.GetLocationsInTriangle | src/utils/spatialAnalysis.ts:105-112 | exactly the locations inside the triangle, as an in-order subsequence |
| SpatialAnalysis.GetLocationsInCircle | src/utils/spatialAnalysis.ts:120-127 | exactly the locations within the radius of the centre, as an in-order subsequence |
| SpatialAnalysis.GetLocationsInPolygon | src/utils/spatialAnalysis.ts:135-142 | exactly the locations inside the polygon, as an in-order subsequence |
| SpatialAnalysis.ShortPolygonContainsNothing | src/utils/spatialAnalysis.ts:82 | a polygon with fewer than three vertices yields no location |
| SpatialAnalysis.AnalyzeTriangle | src/utils/spatialAnalysis.ts:174-185 | id, name, colour and creation time copied; type triangle; contents are the triangle's filter result and the count is their number |
| SpatialAnalysis.AnalyzeCircle | src/utils/spatialAnalysis.ts:188-199 | the same for a circle |
| SpatialAnalysis.AnalyzePolygon | src/utils/spatialAnalysis.ts:202-213 | the same for a polygon |
| SpatialAnalysis.AnalyzeTriangles | src/utils/spatialAnalysis.ts:174-185 | one record per triangle, in order; every record counts its contents and reports only input locations |
| SpatialAnalysis.AnalyzeCircles | src/utils/spatialAnalysis.ts:188-199 | one record per circle, in order, each sound |
| SpatialAnalysis.AnalyzePolygons | src/utils/spatialAnalysis.ts:202-213 | one record per polygon, in order, each sound |
| SpatialAnalysis.AnalyzeAllAOIs | src/utils/spatialAnalysis.ts:165-216 | |T| + |C| + |P| records: the triangles' records first, then the circles', then the polygons' |
| SpatialAnalysis.AnalyzeAllAOIsSound | src/utils/spatialAnalysis.ts:165-216 | every record of a run counts its contents and contains only input locations |
| SpatialAnalysis.SumCountsAppend | src/utils/spatialAnalysis.ts:225 | the count total of a concatenation is the sum of the totals |
| SpatialAnalysis.MostPopulatedIndex | src/utils/spatialAnalysis.ts:227-230 | after n steps the reduction holds nothing exactly when all n counts are 0; otherwise it holds the first index with the largest count |
| SpatialAnalysis.MostPopulated | src/utils/spatialAnalysis.ts:227-238 | null exactly when every count is 0 (an empty list included); otherwise the first record with the maximal, positive count |
| SpatialAnalysis.Average | src/utils/spatialAnalysis.ts:237 | 0 with no AOIs; otherwise the average times the number of AOIs is the total |
| SpatialAnalysis.GetSpatialAnalysisSummary | src/utils/spatialAnalysis.ts:223-239 | total is the list length; location total is the sum of counts; empty is the number of zero counts; empty + non-empty = total; the average and the most populated record as above |
| SpatialAnalysis.SummaryTotalIsSumOfHits | src/utils/spatialAnalysis.ts:165-239 | the summarised location total of a run is the sum over all AOIs of their filter results' lengths, so overlaps count twice |
| SpatialAnalysis.TriangleTotal | src/utils/spatialAnalysis.ts:174-185 | the triangle records' count total is the sum of the triangle filter hits |
| SpatialAnalysis.CircleTotal | src/utils/spatialAnalysis.ts:188-199 | the same for circles |
| SpatialAnalysis.PolygonTotal | src/utils/spatialAnalysis.ts:202-213 | the same for polygons |
| PoiValidation.Round5 | src/utils/poiValidation.ts:84-86 | the result is a whole multiple of 10^-5 and lies in (x - 0.000005, x + 0.000005]; together these make it the nearest multiple, halves going up |
| PoiValidation.Round5Idempotent | src/utils/poiValidation.ts:84-86 | rounding a rounded value changes nothing |
| PoiValidation.Round5Monotonic | src/utils/poiValidation.ts:84-86 | rounding preserves order |
| PoiValidation.Round5Fixes | src/utils/poiValidation.ts:84-86 | multiples of 10^-5, the range limits among them, are left unchanged |
| PoiValidation.ValidatePOI | src/utils/poiValidation.ts:53-107 | longitude, then latitude (both inclusive), then a blank name, then a name over 100 characters, each with its message and no coordinates; valid exactly when all pass, returning the coordinates rounded to five decimals |
| PoiValidation.ValidatedCoordinatesAreClose | src/utils/poiValidation.ts:103-106 | accepted coordinates are within 0.000005 of the input in each axis |
| PoiValidation.ValidatePOIIdempotent | src/utils/poiValidation.ts:53-107 | validating the returned coordinates again accepts them unchanged |
| PoiValidation.NameRules | src/utils/poiValidation.test.ts:40-56 | an absent (empty) name is accepted, "   " is blank, 101 characters are too long |
| PoiValidation.RoundingExample | src/utils/poiValidation.test.ts:58-62 | (-0.123456789, 51.507654321) rounds to (-0.12346, 51.50765) |
| PoiValidation.AssignPOIColor | src/utils/poiValidation.ts:114-116 | the colour is one of the six, taken in order, periodic modulo 6 |
| PoiValidation.AssignPOIIcon | src/utils/poiValidation.ts:124-143 | a mapped category gets its own icon; any other category gets the icon at the POI count modulo 10 in the icon list |
| PoiValidation.IconAssignment | src/utils/poiValidation.ts:124-143 | for listed categories the count is irrelevant; for others the icon repeats every ten POIs |
| PoiValidation.CategoriesAreMapped | src/utils/poiValidation.ts:34-45 | the category list and the icon map's keys are the same set |
| PoiValidation.GetPOICategories | src/utils/poiValidation.ts:230-232 | the ten categories, which are exactly the icon map's keys |
| PoiValidation.GetPOIIcons | src/utils/poiValidation.ts:238-240 | the ten icons, in the order the fallback cycles through them |
| PoiValidation.GetPOIColors | src/utils/poiValidation.ts:246-248 | the six colours, in the order they are assigned |
| PoiValidation.TooCloseMessage | src/utils/poiValidation.ts:175 | the rejection message quotes the POI's name and the distance rounded to whole metres |
| PoiValidation.ValidatePOILocation | src/utils/poiValidation.ts:152-182 | invalid exactly when some existing POI is strictly closer than the minimum; it then names the first such POI, its message, and the POI itself; a POI at identical coordinates always conflicts when the minimum is positive |
| PoiValidation.SnapPOICoordinates | src/utils/poiValidation.ts:191-224 | snaps exactly when some target is within the snap distance (inclusive), onto the first such target, reported as both coordinates and target; otherwise the input comes back unchanged; a target at the point itself always snaps |
| PointClustering.CreateClusterOptions | src/utils/pointClustering.ts:4-7 | minimum zoom below maximum zoom, at least two points per cluster, and clustering applies exactly below the maximum zoom |
| PointClustering.ToFeature | src/utils/pointClustering.ts:39-46 | the feature's geometry is the point's coordinates and its properties are the point |
| PointClustering.MapPointsToGeoJSON | src/utils/pointClustering.ts:38-47 | one well-formed feature per point, in order, carrying that point |
| PointClustering.FeaturesToPoints | src/utils/pointClustering.ts:15 | one point per feature, in order: its properties |
| PointClustering.GeoJSONRoundTrip | src/utils/pointClustering.ts:38-47 | the points read back from the features are the original points |
| PointClustering.GeoJSONInverse | src/utils/pointClustering.ts:38-47 | well-formed features are rebuilt exactly from their points |
| PointClustering.ZoomLevel | src/utils/pointClustering.ts:67 | the floored zoom is the integer at or just below the zoom |
| PointClustering.ShouldCluster | src/utils/pointClustering.ts:73-75 | clustering applies strictly below zoom 15; ShouldClusterThreshold states its properties |
| PointClustering.ShouldClusterThreshold | src/utils/pointClustering.ts:73-75 | 14 and 14.999 cluster, 15 and 16 do not; zooming out never turns clustering off; the decision agrees with the floored zoom |
| PointClustering.GetClusteringDistance | src/utils/pointClustering.ts:90-95 | the distance is positive; times 2^zoom it is 1 for zoom >= 0, and it is 2^-zoom below 0 |
| PointClustering.ClusteringDistanceHalves | src/utils/pointClustering.ts:94 | each zoom level halves the distance |
| PointClustering.ClusteringDistanceDecreasing | src/utils/pointClustering.ts:94 | a higher zoom gives a strictly smaller distance |
| PointClustering.ClusteringDistanceValues | src/utils/pointClustering.test.ts:279-283 | 1 degree at zoom 0; more than 10^-4 degrees at zoom 12 |
| MockDataLoader.ConvertToMapPoint | src/utils/mockDataLoader.ts:60-69 | id, coordinates, label, context and timestamp are copied from the location; the message id is the argument |
| MockDataLoader.MessagePoints | src/utils/mockDataLoader.ts:78 | one converted point per location of the message, in order, tagged with the message's id |
| MockDataLoader.ConvertToMessageGroup | src/utils/mockDataLoader.ts:74-81 | id, summary and timestamp text copied; point k is location k converted under the message's id, and reading it back gives location k |
| MockDataLoader.ConvertRoundTrip | src/utils/mockDataLoader.ts:60-69 | the raw location can be read back from its map point, so conversion loses nothing |
| MockDataLoader.GetAllLocationsAsMapPoints | src/utils/mockDataLoader.ts:86-99 | as many points as raw locations; the location at conversation i, message j, position k is at offset (locations of conversations before i) + (locations of messages before j in conversation i) + k, so the order is conversation, then message, then location; a point is in the result exactly when it is the converted location at some valid position |
| MockDataLoader.MessagesPointIndex | src/utils/mockDataLoader.ts:91-95 | within one conversation, location k of message j follows every location of the messages before j |
| MockDataLoader.AllPointsIndex | src/utils/mockDataLoader.ts:90-96 | the location at a valid position is found at its offset in the flattened list |
| MockDataLoader.MessagesPointsAppend | src/utils/mockDataLoader.ts:91-95 | flattening two lists of messages is flattening each, in order |
| MockDataLoader.AllPointsLength | src/utils/mockDataLoader.ts:90-96 | the flattened list's length is the total location count |
| MockDataLoader.AllPointsSource | src/utils/mockDataLoader.ts:90-96 | every flattened point comes from a valid position |
| MockDataLoader.AllPointsReached | src/utils/mockDataLoader.ts:90-96 | every valid position contributes its point |
| MockDataLoader.ConversationsPointsAppend | src/utils/mockDataLoader.ts:90-96 | flattening two lists of conversations is flattening each, in order |
| MockDataLoader.FindConversation | src/utils/mockDataLoader.ts:106 | nothing exactly when no conversation has the id; otherwise the first index that does |
| MockDataLoader.GetLocationsByConversation | src/utils/mockDataLoader.ts:104-113 | `[]` for an unknown id; otherwise one group per message of the first matching conversation, in order |
| MockDataLoader.FindMessageIn | src/utils/mockDataLoader.ts:122-126 | nothing exactly when no message has the id; otherwise the first index that does |
| MockDataLoader.FindMessage | src/utils/mockDataLoader.ts:121-127 | nothing exactly when no message anywhere has the id; otherwise the first position in scan order |
| MockDataLoader.FirstMessageUnique | src/utils/mockDataLoader.ts:121-127 | the first match in scan order is unique |
| MockDataLoader.GetLocationsByMessage | src/utils/mockDataLoader.ts:118-130 | `[]` when no message has the id; otherwise the points of the first matching message; every point carries the id and belongs to the data |
| MockDataLoader.ScenarioMap | src/utils/mockDataLoader.ts:136-150 | the scenario record has exactly the four names, each holding the list it was given |
| MockDataLoader.GetClusteringTestScenarios | src/utils/mockDataLoader.ts:135-151 | exactly the four scenario names; dense_cluster, warehouse_investigation, gang_territory and transport_hubs hold the points of the messages msg_covent_garden, msg_warehouse_calls, msg_south_london and msg_kings_cross |
| MockDataLoader.ScenariosDrawFromData | src/utils/mockDataLoader.ts:135-151 | every scenario's points are points of the data |
| MockDataLoader.GetLocationsByBoundingBox | src/utils/mockDataLoader.ts:156-168 | exactly the data's points inside the box (all sides inclusive), as an in-order subsequence; an inverted box gives nothing |
| MockDataLoader.BoundingBoxMonotonic | src/utils/mockDataLoader.ts:164-167 | a box inside another selects a subset |
| MockDataLoader.GetLondonLocations | src/utils/mockDataLoader.ts:173-176 | every point is inside the London box |
| MockDataLoader.GetInternationalLocations | src/utils/mockDataLoader.ts:181-190 | exactly the data's points outside the London box, as an in-order subsequence of them |
| MockDataLoader.LondonInternationalPartition | src/utils/mockDataLoader.ts:173-190 | London and international locations partition the data: counts and multisets add up and no point is in both |
| MockDataLoader.GetMockDataStats | src/utils/mockDataLoader.ts:195-208 | conversation, message and location counts; the location count is London plus international |

## Left out

- Haversine trigonometry (`sin`, `cos`, `atan2`, `sqrt`, R = 6371000) in all three copies: every distance is the `dist` parameter. Only non-negativity, symmetry and zero self-distance are assumed, and only where a lemma needs them.
- Floating point: coordinates, areas and distances are exact reals. IEEE-754 rounding, NaN and infinities are not modelled. The explicit 1e-10 thresholds are kept as written.
- The `typeof` check of `validatePOI`: Dafny's typing makes it vacuous.
- `formatRadius` and `formatArea`: they only format floats with `toFixed`.
- `createClusterInstance`, `initializeClustering`, `getClusters` and `getClusterPoints`: thin wrappers over the Supercluster library, which is not part of this model. Only their options record and the zoom flooring are modelled.
- `loadMockEvents` and the JSON import: the data set is a parameter of every query.
- The `metadata` block, including the scenario table, the date range and the bounding box that `getMockDataStats` copies through.
- `Date` values: `createdAt` is an integer timestamp, and a message group keeps its unparsed timestamp text.
- PointClustering.GetClusteringDistance: takes an integer zoom. A fractional `Math.pow(2, zoom)` needs real exponentiation.
- PoiValidation.AssignPOIIcon: does not model JavaScript object lookup of inherited keys. A category such as "constructor" finds a function on the object prototype, not a string, and the model treats it as unmapped.
- PoiValidation.ValidatePOI: name length is counted in characters, not UTF-16 code units.
- Counts (colour and icon indices) are natural numbers: JavaScript's `%` on a negative or fractional count is not modelled.
- MockDataLoader.GetLondonLocations: its own contract states only that results are inside the box. Completeness and the split against international locations are stated by `GetLocationsByBoundingBox` and `LondonInternationalPartition`.
- React components, map layers, the drawing tools and the test setup: they are event handling and rendering. This includes the renderer's own `clusterMaxZoom` option.
- `PI` is the decimal value of JavaScript's `Math.PI`, not the real number pi.
