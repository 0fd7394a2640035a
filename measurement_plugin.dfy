/** The viewport plugin that draws a measurement line in two stages: a
    left press starts the line at the pointer, dragging moves its origin,
    the release enters stage two, in which moving moves its endpoint, and
    the next left press finishes it. The line under construction is
    mirrored into the measurement store's temporary line for this canvas
    and the finished one becomes its finished line.

    Pointer positions arrive already normalised and adjusted for the
    canvas rotation. Whether measurement mode is active is an input to
    every handler. Listener registration is the `listening` flag: the
    pointer-move, pointer-up and interrupt handlers only run while it is
    set, since only then are they registered. */
module MeasurementPlugin {
  import opened Wrappers
  import opened Geometry
  import opened Markings
  import MeasurementMarking
  import MeasurementStore
  import CachedViewport

  datatype Stage = One | Two

  /** The type id the plugin gives its own line. */
  const MeasurementTypeId: string := "__measurement__"

  /** The line a press starts: origin and endpoint both at the pointer. */
  function StartLine(pos: Point): (m: Marking)
    ensures m.origin == pos && m.shape == MeasurementShape(pos)
    ensures m.labelNo == 0 && m.typeId == MeasurementTypeId && m.ids.None?
  {
    MeasurementMarking.New(0, pos, MeasurementTypeId, pos, None)
  }

  /** A pointer move: stage one moves the origin, stage two the endpoint.
      The line is rebuilt without ids. */
  function MovedLine(line: Marking, stage: Stage, pos: Point): (m: Marking)
    requires line.shape.MeasurementShape?
    ensures m.shape.MeasurementShape? && m.labelNo == line.labelNo && m.typeId == line.typeId && m.ids.None?
    ensures stage == One ==> m.origin == pos && m.shape.endpoint == line.shape.endpoint
    ensures stage == Two ==> m.origin == line.origin && m.shape.endpoint == pos
  {
    match stage
    case One => MeasurementMarking.New(line.labelNo, pos, line.typeId, line.shape.endpoint, None)
    case Two => MeasurementMarking.New(line.labelNo, line.origin, line.typeId, pos, None)
  }

  /** The plugin's own line is always one of its measurement lines. */
  predicate OwnLine(m: Marking) {
    m.shape.MeasurementShape? && m.labelNo == 0 && m.typeId == MeasurementTypeId
  }

  /** Whether a press starts or finishes a line (rather than being ignored). */
  predicate DrawsOnPress(active: bool, spacePressed: bool, button: int) {
    active && !spacePressed && button == 0
  }

  datatype DownRoute = ToDrag | NotHandled

  /** `down`: with measurement mode active, a middle press, or a left press
      while Space is held, goes to the drag plugin. */
  function Down(active: bool, spacePressed: bool, button: int): (r: DownRoute)
    ensures r == ToDrag <==> active && (button == 1 || (spacePressed && button == 0))
  {
    if !active then NotHandled
    else if button == 1 || (spacePressed && button == 0) then ToDrag
    else NotHandled
  }

  /** In measurement mode a left press is either drawn or dragged, never
      both and never neither; no other button draws. */
  lemma LeftPressGoesOneWay(active: bool, spacePressed: bool, button: int)
    ensures !(DrawsOnPress(active, spacePressed, button) && Down(active, spacePressed, button) == ToDrag)
    ensures active && button == 0 ==>
      (DrawsOnPress(active, spacePressed, button) <==> Down(active, spacePressed, button) == NotHandled)
    ensures button != 0 ==> !DrawsOnPress(active, spacePressed, button)
  {
  }

  class Plugin {
    const canvasId: CanvasId
    const measurements: MeasurementStore.Store
    const cached: CachedViewport.Store
    var tempLine: Option<Marking>
    var stage: Stage
    var spacePressed: bool
    var listening: bool

    /** While a line is being drawn the plugin holds it and the store's
        temporary line is that same line; stage two only occurs while the
        plugin holds a line. */
    ghost predicate Valid()
      reads this, measurements
    {
      && measurements.Valid()
      && canvasId in measurements.tempLines && canvasId in measurements.finishedLines
      && (tempLine.Some? ==> OwnLine(tempLine.value))
      && (listening ==> tempLine.Some? && measurements.tempLines[canvasId] == tempLine)
      && (stage == Two ==> tempLine.Some?)
    }

    constructor (id: CanvasId, ms: MeasurementStore.Store, cv: CachedViewport.Store)
      requires ms.Valid()
      ensures canvasId == id && measurements == ms && cached == cv
      ensures tempLine.None? && stage == One && !spacePressed && !listening
      ensures Valid()
    {
      canvasId, measurements, cached := id, ms, cv;
      tempLine, stage, spacePressed, listening := None, One, false, false;
    }

    /** `destroy`: unregisters the drawing listeners (the press listener
        stays registered) and keeps the line and the stage. */
    method Destroy()
      requires Valid()
      modifies this`listening
      ensures Valid()
      ensures !listening
    {
      listening := false;
    }

    method KeyDown(code: string)
      modifies this`spacePressed
      ensures spacePressed == (code == "Space" || old(spacePressed))
    {
      if code == "Space" { spacePressed := true; }
    }

    method KeyUp(code: string)
      modifies this`spacePressed
      ensures spacePressed == (code != "Space" && old(spacePressed))
    {
      if code == "Space" { spacePressed := false; }
    }

    /** `cleanup`: abandons the line being drawn. */
    method Cleanup()
      requires Valid()
      modifies this`listening, this`tempLine, this`stage, measurements`tempLines
      ensures Valid()
      ensures !listening && tempLine.None? && stage == One
      ensures measurements.tempLines == old(measurements.tempLines)[canvasId := None]
    {
      listening := false;
      tempLine := None;
      stage := One;
      measurements.SetTempLine(canvasId, None);
    }

    /** `handleInterrupt`, run only while registered. */
    method Interrupt()
      requires Valid()
      modifies this`listening, this`tempLine, this`stage, measurements`tempLines
      ensures Valid()
      ensures old(listening) ==>
        && !listening && tempLine.None? && stage == One
        && measurements.tempLines == old(measurements.tempLines)[canvasId := None]
      ensures !old(listening) ==>
        && tempLine == old(tempLine) && stage == old(stage)
        && measurements.tempLines == old(measurements.tempLines)
    {
      if listening {
        Cleanup();
      }
    }

    /** `handleMouseDown`: a left press without Space in measurement mode
        starts a line in stage one (when the viewport has content) and
        finishes it in stage two. Finishing keeps the plugin's own copy of
        the line. */
    method MouseDown(active: bool, button: int, hasChildren: bool, pos: Point)
      requires Valid()
      modifies this`listening, this`tempLine, this`stage
      modifies measurements`tempLines, measurements`finishedLines, cached`rayPosition
      ensures Valid()
      ensures measurements.calibration == old(measurements.calibration)
      ensures !DrawsOnPress(active, old(spacePressed), button) || (old(stage) == One && !hasChildren) ==>
        && tempLine == old(tempLine) && stage == old(stage) && listening == old(listening)
        && measurements.tempLines == old(measurements.tempLines)
        && measurements.finishedLines == old(measurements.finishedLines)
        && cached.rayPosition == old(cached.rayPosition)
      ensures DrawsOnPress(active, old(spacePressed), button) && old(stage) == One && hasChildren ==>
        && tempLine == Some(StartLine(pos)) && stage == One && listening
        && measurements.tempLines == old(measurements.tempLines)[canvasId := Some(StartLine(pos))]
        && measurements.finishedLines == old(measurements.finishedLines)
        && cached.rayPosition == old(cached.rayPosition)
      ensures DrawsOnPress(active, old(spacePressed), button) && old(stage) == Two ==>
        && tempLine == old(tempLine) && stage == One && !listening
        && measurements.finishedLines == old(measurements.finishedLines)[canvasId := old(tempLine)]
        && measurements.tempLines == old(measurements.tempLines)[canvasId := None]
        && cached.rayPosition == Some(old(tempLine).value.shape.endpoint)
    {
      if DrawsOnPress(active, spacePressed, button) {
        if stage == One {
          StartDrawing(hasChildren, pos);
        } else {
          FinishDrawing();
        }
      }
    }

    method StartDrawing(hasChildren: bool, pos: Point)
      requires Valid() && stage == One
      modifies this`listening, this`tempLine, measurements`tempLines
      ensures Valid()
      ensures !hasChildren ==>
        && tempLine == old(tempLine) && listening == old(listening)
        && measurements.tempLines == old(measurements.tempLines)
      ensures hasChildren ==>
        && tempLine == Some(StartLine(pos)) && listening
        && measurements.tempLines == old(measurements.tempLines)[canvasId := Some(StartLine(pos))]
    {
      if !hasChildren { return; }
      tempLine := Some(StartLine(pos));
      measurements.SetTempLine(canvasId, tempLine);
      listening := true;
    }

    method FinishDrawing()
      requires Valid() && stage == Two
      modifies this`listening, this`stage
      modifies measurements`tempLines, measurements`finishedLines, cached`rayPosition
      ensures Valid()
      ensures old(tempLine).Some?
      ensures stage == One && !listening
      ensures measurements.finishedLines == old(measurements.finishedLines)[canvasId := old(tempLine)]
      ensures measurements.tempLines == old(measurements.tempLines)[canvasId := None]
      ensures cached.rayPosition == Some(old(tempLine).value.shape.endpoint)
    {
      if tempLine.Some? {
        cached.SetRayPosition(tempLine.value.shape.endpoint);
        measurements.SetFinishedLine(canvasId, tempLine);
        measurements.SetTempLine(canvasId, None);
        stage := One;
        listening := false;
      }
    }

    /** `handleMouseMove`, run only while registered. */
    method MouseMove(active: bool, pos: Point)
      requires Valid()
      modifies this`tempLine, measurements`tempLines
      ensures Valid()
      ensures old(listening) && active ==>
        && tempLine == Some(MovedLine(old(tempLine).value, stage, pos))
        && measurements.tempLines == old(measurements.tempLines)[canvasId := tempLine]
      ensures !(old(listening) && active) ==>
        && tempLine == old(tempLine)
        && measurements.tempLines == old(measurements.tempLines)
    {
      if !listening || !active || tempLine.None? { return; }
      tempLine := Some(MovedLine(tempLine.value, stage, pos));
      measurements.SetTempLine(canvasId, tempLine);
    }

    /** `handleLMBUp`, run only while registered: the release that ends
        stage one publishes the line's endpoint as the ray position. */
    method LeftButtonUp(active: bool)
      requires Valid()
      modifies this`stage, cached`rayPosition
      ensures Valid()
      ensures old(listening) && active && old(stage) == One ==>
        stage == Two && cached.rayPosition == Some(tempLine.value.shape.endpoint)
      ensures !(old(listening) && active && old(stage) == One) ==>
        && stage == old(stage) && cached.rayPosition == old(cached.rayPosition)
    {
      if !listening || !active || tempLine.None? { return; }
      if stage == One {
        stage := Two;
        cached.SetRayPosition(tempLine.value.shape.endpoint);
      }
    }
  }

  /** The drawing gesture as a whole, on values: press, drag to `a`,
      release, move to `b`, press. The finished line runs from where the
      first drag ended to where the second move ended; the release between
      them publishes the press position, still the line's endpoint then,
      as the ray. */
  function Gesture(press: Point, a: Point, b: Point): (r: (Marking, Point))
    ensures r.0.origin == a && r.0.shape == MeasurementShape(b) && r.1 == press
  {
    var l0 := StartLine(press);
    var l1 := MovedLine(l0, One, a);
    var l2 := MovedLine(l1, Two, b);
    (l2, l1.shape.endpoint)
  }
}
