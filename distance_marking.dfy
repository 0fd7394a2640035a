/** A distance marking: a line segment, classed LINE_SEGMENT so that the
    existing handlers draw it, that reports its image-space length. The
    square root and `toFixed(2)` are not modelled: the length is given by
    its square, which orders and compares lengths the same way. */
module DistanceMarking {
  import opened Wrappers
  import opened Geometry
  import opened Markings
  import LineSegmentMarking

  function New(labelNo: int, origin: Point, typeId: string, endpoint: Point, ids: Option<seq<string>>): (m: Marking)
    ensures m == LineSegmentMarking.New(labelNo, origin, typeId, endpoint, ids)
  {
    Marking(labelNo, origin, typeId, ids, LineSegmentShape(endpoint))
  }

  /** `getDistance()` squared. */
  function DistanceSquaredOf(m: Marking): real
    requires LineSegmentMarking.HasEndpoint(m)
  {
    DistanceSquared(m.origin, LineSegmentMarking.Endpoint(m))
  }

  /** The length is never negative, is zero for a degenerate segment, and
      does not depend on the segment's direction. */
  lemma DistanceProperties(labelNo: int, origin: Point, typeId: string, endpoint: Point, ids: Option<seq<string>>)
    ensures DistanceSquaredOf(New(labelNo, origin, typeId, endpoint, ids)) >= 0.0
    ensures DistanceSquaredOf(New(labelNo, origin, typeId, origin, ids)) == 0.0
    ensures DistanceSquaredOf(New(labelNo, origin, typeId, endpoint, ids))
         == DistanceSquaredOf(New(labelNo, endpoint, typeId, origin, ids))
  {
    SquareNonNegative(endpoint.x - origin.x);
    SquareNonNegative(endpoint.y - origin.y);
  }

  /** The formatted text's unit suffix. */
  const FormattedSuffix: string := " px"
}
