/** The decisions made while rendering one marking: the rotation about the
    image centre, the bitmap font chosen for a size, the blink window and
    its on/off phase, the measurement readout, the bounding-box rectangle,
    the open or closed polygon outline, and the dispatch on the marking
    class. The Pixi drawing calls themselves are not modelled; each
    decision yields a `Figure` describing what is drawn. Trigonometry is
    an input: `cosR` and `sinR` are the cosine and sine of `rotation`. */
module MarkingRender {
  import opened Wrappers
  import opened Geometry
  import opened Markings
  import Strings
  import LineSegmentMarking

  // ---- Rotation about a centre -------------------------------------------

  function Rotate(p: Point, cosR: real, sinR: real, cx: real, cy: real): Point {
    var x := p.x - cx;
    var y := p.y - cy;
    Point(x * cosR - y * sinR + cx, x * sinR + y * cosR + cy)
  }

  /** `transformPoint`: a zero rotation returns the point itself. */
  function TransformPoint(p: Point, rotation: real, cosR: real, sinR: real, cx: real, cy: real): (r: Point)
    ensures rotation == 0.0 ==> r == p
    ensures rotation != 0.0 ==> r == Rotate(p, cosR, sinR, cx, cy)
  {
    if rotation == 0.0 then p else Rotate(p, cosR, sinR, cx, cy)
  }

  /** The centre is fixed by every rotation. */
  lemma PivotIsFixed(rotation: real, cosR: real, sinR: real, cx: real, cy: real)
    ensures TransformPoint(Point(cx, cy), rotation, cosR, sinR, cx, cy) == Point(cx, cy)
  {
  }

  /** A full turn (cosine 1, sine 0) changes nothing either. */
  lemma FullTurnIsIdentity(p: Point, rotation: real, cx: real, cy: real)
    ensures TransformPoint(p, rotation, 1.0, 0.0, cx, cy) == p
  {
  }

  /** A rotation keeps the distance to the centre: the squared distance is
      scaled by cos² + sin², which is one for an actual angle. */
  lemma RotationKeepsRadius(p: Point, cosR: real, sinR: real, cx: real, cy: real)
    requires cosR * cosR + sinR * sinR == 1.0
    ensures DistanceSquared(Point(cx, cy), Rotate(p, cosR, sinR, cx, cy)) == DistanceSquared(Point(cx, cy), p)
  {
    var x := p.x - cx;
    var y := p.y - cy;
    var q := Rotate(p, cosR, sinR, cx, cy);
    assert q.x - cx == x * cosR - y * sinR;
    assert q.y - cy == x * sinR + y * cosR;
    calc {
      (x * cosR - y * sinR) * (x * cosR - y * sinR) + (x * sinR + y * cosR) * (x * sinR + y * cosR);
      x * x * (cosR * cosR + sinR * sinR) + y * y * (cosR * cosR + sinR * sinR);
      x * x + y * y;
    }
  }

  // ---- Bitmap font choice ------------------------------------------------

  /** `Math.ceil` on exact reals. */
  function Ceil(r: real): (n: int)
    ensures n as real - 1.0 < r <= n as real
  {
    if r == r.Floor as real then r.Floor else r.Floor + 1
  }

  const FontFamily: string := "Cousine"
  const MinFontSize: int := 6
  const MaxFontSize: int := 32

  /** The clamped size the font name carries. */
  function FontSize(size: real): (n: int)
    ensures MinFontSize <= n <= MaxFontSize
    ensures MinFontSize <= Ceil(size) <= MaxFontSize ==> n == Ceil(size)
    ensures Ceil(size) < MinFontSize ==> n == MinFontSize
    ensures Ceil(size) > MaxFontSize ==> n == MaxFontSize
  {
    var c := Ceil(size);
    if c > MaxFontSize then MaxFontSize else if c < MinFontSize then MinFontSize else c
  }

  /** `getFontName`: "Cousine n". */
  function FontName(size: real): (s: string)
    ensures s == FontFamily + " " + Strings.NatToString(FontSize(size) as nat)
  {
    FontFamily + " " + Strings.IntToString(FontSize(size))
  }

  /** Two sizes get the same font exactly when their clamped sizes agree,
      and the number in the name reads back as that clamped size. */
  lemma FontNameNamesSize(a: real, b: real)
    ensures FontName(a) == FontName(b) <==> FontSize(a) == FontSize(b)
    ensures Strings.DigitsValue(FontName(a)[|FontFamily| + 1..]) == FontSize(a)
  {
    var pa := Strings.NatToString(FontSize(a) as nat);
    var pb := Strings.NatToString(FontSize(b) as nat);
    assert FontName(a)[|FontFamily| + 1..] == pa;
    assert FontName(b)[|FontFamily| + 1..] == pb;
    if FontName(a) == FontName(b) {
      Strings.NatToStringInjective(FontSize(a) as nat, FontSize(b) as nat);
    }
    Strings.NatToStringValue(FontSize(a) as nat);
  }

  // ---- Blinking ----------------------------------------------------------

  datatype Blink = Blink(labelNo: int, until: int, periodMs: int)

  /** `shouldBlinkNow`: the phase `floor(now / periodMs)` is even. A zero
      period divides to a non-number, whose parity test fails. */
  function ShouldBlinkNow(periodMs: int, now: int): bool {
    if periodMs == 0 then false
    else ((now as real) / (periodMs as real)).Floor % 2 == 0
  }

  /** Advancing by one period flips the phase. */
  lemma BlinkAlternates(periodMs: int, now: int)
    requires periodMs != 0
    ensures ShouldBlinkNow(periodMs, now + periodMs) != ShouldBlinkNow(periodMs, now)
  {
    var p := periodMs as real;
    var q := (now as real) / p;
    assert q * p == now as real;
    assert (q + 1.0) * p == (now + periodMs) as real;
    DivisionIsUnique((now + periodMs) as real, p, q + 1.0);
    assert (q + 1.0).Floor == q.Floor + 1;
  }

  lemma DivisionIsUnique(a: real, b: real, c: real)
    requires b != 0.0 && c * b == a
    ensures a / b == c
  {
  }

  /** The render state whose one variable `blinkMarking` assigns. */
  class Blinker {
    var blinking: Option<Blink>

    constructor ()
      ensures blinking.None?
    {
      blinking := None;
    }

    /** `blinkMarking(label, flashes, periodMs)` at time `now`. */
    method BlinkMarking(labelNo: int, flashes: int, periodMs: int, now: int)
      modifies this
      ensures blinking == Some(Blink(labelNo, now + flashes * 2 * periodMs, periodMs))
    {
      blinking := Some(Blink(labelNo, now + flashes * 2 * periodMs, periodMs));
    }

    /** `blinkMarking(label)` with the defaults: three flashes of 150 ms. */
    method BlinkMarkingDefault(labelNo: int, now: int)
      modifies this
      ensures blinking == Some(Blink(labelNo, now + 900, 150))
    {
      BlinkMarking(labelNo, 3, 150, now);
    }

    function IsBlinkActive(now: int): bool
      reads this
    {
      IsActive(blinking, now)
    }

    function Emphasis(labelNo: int, isSelected: bool, now: int): bool
      reads this
    {
      Emphasize(blinking, labelNo, isSelected, now)
    }
  }

  predicate IsActive(blinking: Option<Blink>, now: int) {
    blinking.Some? && now < blinking.value.until
  }

  predicate IsBlinkingThis(blinking: Option<Blink>, labelNo: int, now: int) {
    blinking.Some? && blinking.value.labelNo == labelNo && now < blinking.value.until
  }

  /** The emphasis `drawMarking` uses: while a marking blinks, the phase
      decides and overrides selection; otherwise selection decides. */
  function Emphasize(blinking: Option<Blink>, labelNo: int, isSelected: bool, now: int): (e: bool)
    ensures !IsBlinkingThis(blinking, labelNo, now) ==> e == isSelected
    ensures IsBlinkingThis(blinking, labelNo, now) ==> e == ShouldBlinkNow(blinking.value.periodMs, now)
  {
    if IsBlinkingThis(blinking, labelNo, now) then ShouldBlinkNow(blinking.value.periodMs, now)
    else isSelected
  }

  /** After `blinkMarking` at `t0`, the window is open exactly for the
      next `flashes * 2 * periodMs` milliseconds, only the blinking label is
      affected, and during the window its emphasis alternates each period. */
  lemma BlinkWindow(labelNo: int, flashes: int, periodMs: int, t0: int, now: int, other: int, sel: bool)
    requires other != labelNo
    ensures var b := Some(Blink(labelNo, t0 + flashes * 2 * periodMs, periodMs));
      && (IsActive(b, now) <==> now < t0 + flashes * 2 * periodMs)
      && Emphasize(b, other, sel, now) == sel
      && (now >= t0 + flashes * 2 * periodMs ==> Emphasize(b, labelNo, sel, now) == sel)
  {
  }

  lemma BlinkPhaseFlips(labelNo: int, flashes: int, periodMs: int, t0: int, now: int, sel: bool)
    requires periodMs > 0
    requires now + periodMs < t0 + flashes * 2 * periodMs
    ensures var b := Some(Blink(labelNo, t0 + flashes * 2 * periodMs, periodMs));
      Emphasize(b, labelNo, sel, now + periodMs) != Emphasize(b, labelNo, sel, now)
  {
    BlinkAlternates(periodMs, now);
  }

  // ---- Measurement readout -----------------------------------------------

  /** Below 0.1 px nothing is drawn; `DistanceSquared` < 0.01 says so
      without the square root. */
  const MinDrawnDistanceSquared: real := 0.01

  /** The text of a measurement, before `toFixed(2)`: the squared pixel
      length, divided into millimetres when the calibration says "mm".
      (`sqrt(d2) / ppu` is shown; `d2` and `ppu` are carried.) */
  datatype Readout = NoReadout | Pixels(distSquared: real) | Millimetres(distSquared: real, pixelsPerUnit: real)

  function MeasurementReadout(origin: Point, endpoint: Point, calibration: Option<Calibration>): (r: Readout)
    ensures DistanceSquared(origin, endpoint) < MinDrawnDistanceSquared <==> r.NoReadout?
    ensures r.Millimetres? <==>
      && DistanceSquared(origin, endpoint) >= MinDrawnDistanceSquared
      && calibration.Some? && calibration.value.unit == "mm" && calibration.value.pixelsPerUnit > 0.0
    ensures !r.NoReadout? ==> r.distSquared == DistanceSquared(origin, endpoint)
    ensures r.Millimetres? ==> r.pixelsPerUnit == calibration.value.pixelsPerUnit
  {
    var d2 := DistanceSquared(origin, endpoint);
    if d2 < MinDrawnDistanceSquared then NoReadout
    else if calibration.Some? && calibration.value.unit == "mm" && calibration.value.pixelsPerUnit > 0.0 then
      Millimetres(d2, calibration.value.pixelsPerUnit)
    else Pixels(d2)
  }

  /** A degenerate measurement shows nothing; the readout does not depend
      on which end is the origin. */
  lemma ReadoutProperties(origin: Point, endpoint: Point, calibration: Option<Calibration>)
    ensures MeasurementReadout(origin, origin, calibration).NoReadout?
    ensures MeasurementReadout(origin, endpoint, calibration) == MeasurementReadout(endpoint, origin, calibration)
  {
  }

  // ---- Bounding box ------------------------------------------------------

  datatype Rect = Rect(x: real, y: real, width: real, height: real)

  function BoundingRect(p: Point, q: Point): (r: Rect)
    ensures r.width >= 0.0 && r.height >= 0.0
    ensures r.x <= p.x && r.x <= q.x && (r.x == p.x || r.x == q.x)
    ensures r.y <= p.y && r.y <= q.y && (r.y == p.y || r.y == q.y)
    ensures r.x + r.width == (if p.x >= q.x then p.x else q.x)
    ensures r.y + r.height == (if p.y >= q.y then p.y else q.y)
  {
    Rect(Min(p.x, q.x), Min(p.y, q.y), Abs(q.x - p.x), Abs(q.y - p.y))
  }

  /** The same box comes from either pair of opposite corners. */
  lemma BoundingRectCornerIndependent(p: Point, q: Point)
    ensures BoundingRect(p, q) == BoundingRect(q, p)
    ensures BoundingRect(p, q) == BoundingRect(Point(p.x, q.y), Point(q.x, p.y))
  {
  }

  // ---- Polygon -----------------------------------------------------------

  /** What `drawPolygonMarking` draws: nothing for no points; otherwise the
      outline through the points, closed back to the first and filled when
      there are more than two. */
  datatype PolygonPlan = NoPolygon | Outline(path: seq<Point>, filled: bool)

  function PlanPolygon(points: seq<Point>): (r: PolygonPlan)
    ensures |points| == 0 <==> r.NoPolygon?
    ensures r.Outline? ==> (r.filled <==> |points| > 2)
    ensures r.Outline? ==> |r.path| == if |points| > 2 then |points| + 1 else |points|
    ensures r.Outline? ==> r.path[..|points|] == points && r.path[0] == points[0]
    ensures r.Outline? && r.filled ==> r.path[|r.path| - 1] == points[0]
  {
    if |points| == 0 then NoPolygon
    else if |points| > 2 then Outline(points + [points[0]], true)
    else Outline(points, false)
  }

  // ---- Dispatch ----------------------------------------------------------

  datatype Figure =
    | PointFigure(at: Point)
    | RayFigure(at: Point, angleRad: real, rotation: real)
    | MeasurementFigure(from: Point, to: Point, readout: Readout)
    | LineSegmentFigure(from: Point, to: Point)
    | BoxFigure(rect: Rect)
    | PolygonFigure(plan: PolygonPlan)

  /** One drawn marking: its label and type, whether it is emphasised,
      and what is drawn. */
  datatype Drawing = Drawing(labelNo: int, typeId: string, emphasized: bool, figure: Figure)

  /** Where `drawMarking` places a point: scaled by the viewport ratios,
      then rotated about the centre. */
  function Place(p: Point, wr: real, hr: real, rotation: real, cosR: real, sinR: real, cx: real, cy: real): Point {
    TransformPoint(Scale(p, wr, hr), rotation, cosR, sinR, cx, cy)
  }

  function PlaceAll(ps: seq<Point>, wr: real, hr: real, rotation: real, cosR: real, sinR: real, cx: real, cy: real): (r: seq<Point>)
    ensures |r| == |ps|
    ensures forall i :: 0 <= i < |ps| ==> r[i] == Place(ps[i], wr, hr, rotation, cosR, sinR, cx, cy)
  {
    if ps == [] then [] else [Place(ps[0], wr, hr, rotation, cosR, sinR, cx, cy)] + PlaceAll(ps[1..], wr, hr, rotation, cosR, sinR, cx, cy)
  }

  /** The view parameters `drawMarking` receives besides the marking. */
  datatype View = View(
    widthRatio: real, heightRatio: real, calibration: Option<Calibration>,
    rotation: real, cosR: real, sinR: real, centerX: real, centerY: real)

  function PlaceIn(p: Point, v: View): Point {
    Place(p, v.widthRatio, v.heightRatio, v.rotation, v.cosR, v.sinR, v.centerX, v.centerY)
  }

  /** `drawMarking` for a resolved type, with the emphasis already decided.
      The measurement readout uses the image-space points; every other
      figure uses placed points. The relative origin and endpoint are
      placed the same way for every class. */
  function DrawMarking(emphasize: bool, m: Marking, v: View): (d: Drawing)
    ensures d.labelNo == m.labelNo && d.typeId == m.typeId && d.emphasized == emphasize
    ensures d.figure.PointFigure? <==> m.MarkingClass() == PointClass
    ensures d.figure.RayFigure? <==> m.MarkingClass() == RayClass
    ensures d.figure.MeasurementFigure? <==> m.MarkingClass() == MeasurementClass
    ensures d.figure.LineSegmentFigure? <==> m.MarkingClass() == LineSegmentClass
    ensures d.figure.BoxFigure? <==> m.MarkingClass() == BoundingBoxClass
    ensures d.figure.PolygonFigure? <==> m.MarkingClass() in {PolygonClass, RectangleClass}
    ensures d.figure.MeasurementFigure? ==>
      d.figure.readout == MeasurementReadout(m.origin, m.shape.endpoint, v.calibration)
  {
    var o := PlaceIn(m.origin, v);
    var f := match m.shape
      case PointShape => PointFigure(o)
      case RayShape(a) => RayFigure(o, a, v.rotation)
      case MeasurementShape(e) =>
        MeasurementFigure(o, PlaceIn(e, v), MeasurementReadout(m.origin, e, v.calibration))
      case LineSegmentShape(e) => LineSegmentFigure(o, PlaceIn(e, v))
      case BoundingBoxShape(e) => BoxFigure(BoundingRect(o, PlaceIn(e, v)))
      case PolygonShape(ps) =>
        PolygonFigure(PlanPolygon(PlaceAll(ps, v.widthRatio, v.heightRatio, v.rotation, v.cosR, v.sinR, v.centerX, v.centerY)))
      case RectangleShape(ps) =>
        PolygonFigure(PlanPolygon(PlaceAll(ps, v.widthRatio, v.heightRatio, v.rotation, v.cosR, v.sinR, v.centerX, v.centerY)));
    Drawing(m.labelNo, m.typeId, emphasize, f)
  }

  /** With unit ratios and no rotation, a line segment is drawn between its
      stored points, and a measurement's readout is unaffected by the view. */
  lemma NeutralViewDrawsStoredPoints(emphasize: bool, m: Marking, v: View, w: View)
    requires v.widthRatio == 1.0 && v.heightRatio == 1.0 && v.rotation == 0.0
    requires m.shape.LineSegmentShape?
    ensures DrawMarking(emphasize, m, v).figure == LineSegmentFigure(m.origin, m.shape.endpoint)
    ensures var mm := m.(shape := MeasurementShape(m.shape.endpoint));
      w.calibration == v.calibration ==>
      DrawMarking(emphasize, mm, w).figure.readout == DrawMarking(emphasize, mm, v).figure.readout
  {
  }
}
