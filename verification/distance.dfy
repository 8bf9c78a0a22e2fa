/** The great-circle (Haversine) distance of the source, in metres. Its
    trigonometry is not modelled: every operation that measures distance takes
    the distance function as a parameter, and the facts the model relies on are
    collected in `IsDistance`. */
module Distance {

  import opened Types

  type DistanceFn = (Coord, Coord) -> real

  /** Non-negative, symmetric, and zero between a point and itself. */
  ghost predicate IsDistance(dist: DistanceFn) {
    forall p: Coord, q: Coord ::
      && dist(p, q) >= 0.0
      && dist(p, q) == dist(q, p)
      && (p == q ==> dist(p, q) == 0.0)
  }
}
