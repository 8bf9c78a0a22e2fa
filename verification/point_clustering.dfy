/** The clustering policy around the Supercluster library
    (src/utils/pointClustering.ts): its configuration constants, the GeoJSON
    conversion of map points, the zoom-level decision whether to cluster and
    the zoom-dependent clustering distance. The library itself is not part of
    this model. */
module PointClustering {

  import opened Types
  import Seqs

  /** Cluster radius in screen pixels. */
  const CLUSTER_RADIUS: nat := 50
  /** From this zoom level on, points are shown individually. */
  const CLUSTER_MAX_ZOOM: int := 15
  const CLUSTER_MIN_ZOOM: int := 0
  const CLUSTER_MIN_POINTS: nat := 2

  /** The options `createClusterInstance` passes to Supercluster. */
  datatype ClusterOptions = ClusterOptions(radius: nat, maxZoom: int, minZoom: int, minPoints: nat)

  function CreateClusterOptions(): (o: ClusterOptions)
    ensures o.minZoom < o.maxZoom
    ensures o.minPoints >= 2
    ensures forall zoom: real :: ShouldCluster(zoom) <==> zoom < o.maxZoom as real
  {
    ClusterOptions(CLUSTER_RADIUS, CLUSTER_MAX_ZOOM, CLUSTER_MIN_ZOOM, CLUSTER_MIN_POINTS)
  }

  /** A GeoJSON point feature whose properties are the map point itself; the
      constant `type: 'Feature'` and `geometry.type: 'Point'` tags are implied. */
  datatype ClusterPoint = ClusterPoint(coordinates: Coord, properties: MapPoint)

  /** The feature's geometry repeats its point's coordinates. */
  predicate WellFormed(f: ClusterPoint) {
    f.coordinates == f.properties.coordinates
  }

  function ToFeature(p: MapPoint): (f: ClusterPoint)
    ensures WellFormed(f) && f.properties == p
  {
    ClusterPoint(p.coordinates, p)
  }

  /** One well-formed feature per point, in order. */
  function MapPointsToGeoJSON(points: seq<MapPoint>): (r: seq<ClusterPoint>)
    ensures |r| == |points|
    ensures forall k :: 0 <= k < |r| ==> WellFormed(r[k]) && r[k].properties == points[k]
  {
    Seqs.Map(points, ToFeature)
  }

  /** The points carried by a list of features. */
  function FeaturesToPoints(features: seq<ClusterPoint>): (r: seq<MapPoint>)
    ensures |r| == |features|
    ensures forall k :: 0 <= k < |r| ==> r[k] == features[k].properties
  {
    Seqs.Map(features, (f: ClusterPoint) => f.properties)
  }

  /** Converting to features loses nothing: the points come back unchanged. */
  lemma GeoJSONRoundTrip(points: seq<MapPoint>)
    ensures FeaturesToPoints(MapPointsToGeoJSON(points)) == points
  {
  }

  /** Well-formed features are exactly the images of their points. */
  lemma GeoJSONInverse(features: seq<ClusterPoint>)
    requires forall k :: 0 <= k < |features| ==> WellFormed(features[k])
    ensures MapPointsToGeoJSON(FeaturesToPoints(features)) == features
  {
  }

  // ---------------------------------------------------------------------------
  // Zoom policy

  /** Cluster strictly below the maximum zoom. */
  predicate ShouldCluster(zoom: real) {
    zoom < CLUSTER_MAX_ZOOM as real
  }

  /** The integer zoom `getClusters` hands to the library: `Math.floor(zoom)`. */
  function ZoomLevel(zoom: real): (z: int)
    ensures z as real <= zoom < z as real + 1.0
  {
    zoom.Floor
  }

  /** Clustering stops for good once the zoom reaches 15: zooming out never
      turns it off, and the decision only depends on the floored zoom level. */
  lemma ShouldClusterThreshold(z1: real, z2: real)
    ensures ShouldCluster(14.0) && ShouldCluster(14.999) && !ShouldCluster(15.0) && !ShouldCluster(16.0)
    ensures z1 <= z2 && ShouldCluster(z2) ==> ShouldCluster(z1)
    ensures ShouldCluster(z1) <==> ZoomLevel(z1) < CLUSTER_MAX_ZOOM
  {
  }

  /** 2^n. */
  function Pow2(n: nat): (r: nat)
    ensures r >= 1
  {
    if n == 0 then 1 else 2 * Pow2(n - 1)
  }

  /** `1 / Math.pow(2, zoom)` degrees, for integer zoom levels of either sign. */
  function GetClusteringDistance(zoom: int): (d: real)
    ensures d > 0.0
    ensures zoom >= 0 ==> d * (Pow2(zoom) as real) == 1.0
    ensures zoom < 0 ==> d == Pow2(-zoom) as real
  {
    if zoom >= 0 then 1.0 / (Pow2(zoom) as real) else Pow2(-zoom) as real
  }

  /** Each zoom level halves the distance. */
  lemma ClusteringDistanceHalves(zoom: int)
    ensures GetClusteringDistance(zoom + 1) * 2.0 == GetClusteringDistance(zoom)
  {
    if zoom >= 0 {
      assert Pow2(zoom + 1) == 2 * Pow2(zoom);
    } else if zoom == -1 {
      assert Pow2(1) == 2;
    } else {
      assert Pow2(-zoom) == 2 * Pow2(-zoom - 1);
    }
  }

  /** Higher zoom, strictly smaller distance. */
  lemma {:induction false} ClusteringDistanceDecreasing(z1: int, z2: int)
    requires z1 < z2
    ensures GetClusteringDistance(z1) > GetClusteringDistance(z2)
    decreases z2 - z1
  {
    ClusteringDistanceHalves(z1);
    if z1 + 1 < z2 {
      ClusteringDistanceDecreasing(z1 + 1, z2);
    }
  }

  /** One degree at zoom 0; above 10^-4 degrees (about 10 m) at zoom 12. */
  lemma ClusteringDistanceValues()
    ensures GetClusteringDistance(0) == 1.0
    ensures GetClusteringDistance(12) > 0.0001
  {
    assert Pow2(12) == 4096;
  }
}
