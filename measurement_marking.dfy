/** A measurement marking: a line segment whose class is MEASUREMENT. */
module MeasurementMarking {
  import opened Wrappers
  import opened Geometry
  import opened Markings
  import LineSegmentMarking

  function New(labelNo: int, origin: Point, typeId: string, endpoint: Point, ids: Option<seq<string>>): (m: Marking)
    ensures m.MarkingClass() == MeasurementClass && m.MarkingClass().Name() == "measurement"
  {
    Marking(labelNo, origin, typeId, ids, MeasurementShape(endpoint))
  }

  /** The constructor forwards every argument unchanged to the line-segment
      constructor: the two differ only in their class, and so project to
      the viewport identically. */
  lemma ForwardsToLineSegment(labelNo: int, origin: Point, typeId: string, endpoint: Point,
                              ids: Option<seq<string>>, wr: real, hr: real)
    ensures var m := New(labelNo, origin, typeId, endpoint, ids);
      var s := LineSegmentMarking.New(labelNo, origin, typeId, endpoint, ids);
      && m.labelNo == s.labelNo && m.origin == s.origin && m.typeId == s.typeId && m.ids == s.ids
      && LineSegmentMarking.Endpoint(m) == LineSegmentMarking.Endpoint(s)
      && LineSegmentMarking.OriginViewportPosition(m, wr, hr) == LineSegmentMarking.OriginViewportPosition(s, wr, hr)
      && LineSegmentMarking.EndpointViewportPosition(m, wr, hr) == LineSegmentMarking.EndpointViewportPosition(s, wr, hr)
  {
  }

  /** Omitting `ids` leaves them undefined. */
  lemma OmittedIdsStayUndefined(labelNo: int, origin: Point, typeId: string, endpoint: Point)
    ensures New(labelNo, origin, typeId, endpoint, None).ids.None?
  {
  }
}
