/** The marking record shared by every marking kind and the marking-type
    record. The base class's own file is not part of this model; its fields
    (label, origin, typeId, optional ids) are those every subclass
    constructor forwards. */
module Markings {
  import opened Wrappers
  import opened Geometry

  /** The `MARKING_CLASS` enumeration. */
  datatype MarkingClass =
    | PointClass | RayClass | LineSegmentClass | BoundingBoxClass
    | PolygonClass | RectangleClass | MeasurementClass
  {
    function Name(): string {
      match this
      case PointClass => "point"
      case RayClass => "ray"
      case LineSegmentClass => "line_segment"
      case BoundingBoxClass => "bounding_box"
      case PolygonClass => "polygon"
      case RectangleClass => "rectangle"
      case MeasurementClass => "measurement"
    }
  }

  /** The subclass-specific part of a marking: which extra field it carries. */
  datatype Shape =
    | PointShape
    | RayShape(angleRad: real)
    | LineSegmentShape(endpoint: Point)
    | MeasurementShape(endpoint: Point)
    | BoundingBoxShape(endpoint: Point)
    | PolygonShape(points: seq<Point>)
    | RectangleShape(points: seq<Point>)
  {
    function Class(): MarkingClass {
      match this
      case PointShape => PointClass
      case RayShape(_) => RayClass
      case LineSegmentShape(_) => LineSegmentClass
      case MeasurementShape(_) => MeasurementClass
      case BoundingBoxShape(_) => BoundingBoxClass
      case PolygonShape(_) => PolygonClass
      case RectangleShape(_) => RectangleClass
    }
  }

  /** A marking; `labelNo` is the source's numeric `label` (a Dafny keyword),
      and `ids == None` stands for `ids` left undefined. */
  datatype Marking = Marking(
    labelNo: int, origin: Point, typeId: string, ids: Option<seq<string>>, shape: Shape)
  {
    function MarkingClass(): MarkingClass { shape.Class() }
  }

  /** A user-defined marking type. */
  datatype MarkingType = MarkingType(
    id: string, name: string, displayName: Option<string>, markingClass: MarkingClass,
    backgroundColor: string, textColor: string, size: real, category: string)

  /** Origin projected to viewport coordinates. */
  function OriginViewportPosition(m: Marking, widthRatio: real, heightRatio: real): Point {
    Scale(m.origin, widthRatio, heightRatio)
  }
}
