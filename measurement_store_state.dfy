/** The measurement tool's state: per canvas, the line being drawn, the
    last finished line and a calibration. */
module MeasurementStoreState {
  import opened Wrappers
  import opened Geometry
  import opened Markings

  datatype State = State(
    tempLines: map<CanvasId, Option<Marking>>,
    finishedLines: map<CanvasId, Option<Marking>>,
    calibration: map<CanvasId, Calibration>)

  const NoLines: map<CanvasId, Option<Marking>> := map[Left := None, Right := None]

  const Initial: State :=
    State(NoLines, NoLines, map[Left := DefaultCalibration, Right := DefaultCalibration])

  /** Every record has an entry for exactly the two canvases. */
  predicate Complete(s: State) {
    s.tempLines.Keys == s.finishedLines.Keys == s.calibration.Keys == {Left, Right}
  }

  lemma InitialIsEmpty()
    ensures Complete(Initial)
    ensures Initial.tempLines[Left].None? && Initial.tempLines[Right].None?
    ensures Initial.finishedLines[Left].None? && Initial.finishedLines[Right].None?
    ensures Initial.calibration[Left] == Initial.calibration[Right] == Calibration(1.0, "px")
  {
  }
}
