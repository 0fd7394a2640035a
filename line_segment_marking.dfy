/** A line-segment marking: an origin and an endpoint, both projected to
    the viewport by scaling with the viewport's width and height ratios. */
module LineSegmentMarking {
  import opened Wrappers
  import opened Geometry
  import opened Markings

  /** `new LineSegmentMarking(labelNo, origin, typeId, endpoint, ids?)`. */
  function New(labelNo: int, origin: Point, typeId: string, endpoint: Point, ids: Option<seq<string>>): (m: Marking)
    ensures m.MarkingClass() == LineSegmentClass && m.MarkingClass().Name() == "line_segment"
    ensures m.labelNo == labelNo && m.origin == origin && m.typeId == typeId && m.ids == ids
    ensures m.shape.endpoint == endpoint
  {
    Marking(labelNo, origin, typeId, ids, LineSegmentShape(endpoint))
  }

  /** The endpoint of any marking that has one. */
  predicate HasEndpoint(m: Marking) {
    m.shape.LineSegmentShape? || m.shape.MeasurementShape? || m.shape.BoundingBoxShape?
  }

  function Endpoint(m: Marking): Point
    requires HasEndpoint(m)
  {
    m.shape.endpoint
  }

  function OriginViewportPosition(m: Marking, widthRatio: real, heightRatio: real): (p: Point)
    ensures p.x == m.origin.x * widthRatio && p.y == m.origin.y * heightRatio
  {
    Scale(m.origin, widthRatio, heightRatio)
  }

  function EndpointViewportPosition(m: Marking, widthRatio: real, heightRatio: real): (p: Point)
    requires HasEndpoint(m)
    ensures p.x == Endpoint(m).x * widthRatio && p.y == Endpoint(m).y * heightRatio
  {
    Scale(Endpoint(m), widthRatio, heightRatio)
  }

  /** With unit ratios both projections are the stored coordinates. */
  lemma UnitRatiosAreIdentity(m: Marking)
    requires HasEndpoint(m)
    ensures OriginViewportPosition(m, 1.0, 1.0) == m.origin
    ensures EndpointViewportPosition(m, 1.0, 1.0) == Endpoint(m)
  {
  }

  /** Projecting twice multiplies the ratios. */
  lemma ProjectionsCompose(m: Marking, w1: real, h1: real, w2: real, h2: real)
    requires HasEndpoint(m)
    ensures Scale(OriginViewportPosition(m, w1, h1), w2, h2) == OriginViewportPosition(m, w1 * w2, h1 * h2)
    ensures Scale(EndpointViewportPosition(m, w1, h1), w2, h2) == EndpointViewportPosition(m, w1 * w2, h1 * h2)
  {
  }
}
