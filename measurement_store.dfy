/** The measurement store's actions. Each one assigns the entries of one
    canvas (or all), leaving every other entry as it was. */
module MeasurementStore {
  import opened Wrappers
  import opened Geometry
  import opened Markings
  import opened MeasurementStoreState

  class Store {
    var tempLines: map<CanvasId, Option<Marking>>
    var finishedLines: map<CanvasId, Option<Marking>>
    var calibration: map<CanvasId, Calibration>

    function Current(): State
      reads this
    {
      State(tempLines, finishedLines, calibration)
    }

    ghost predicate Valid()
      reads this
    {
      Complete(Current())
    }

    constructor ()
      ensures Valid() && Current() == Initial
    {
      tempLines, finishedLines := NoLines, NoLines;
      calibration := map[Left := DefaultCalibration, Right := DefaultCalibration];
      new;
      InitialIsEmpty();
    }

    method Reset()
      modifies this
      ensures Valid() && Current() == Initial
    {
      tempLines, finishedLines := NoLines, NoLines;
      calibration := map[Left := DefaultCalibration, Right := DefaultCalibration];
      InitialIsEmpty();
    }

    method SetTempLine(c: CanvasId, line: Option<Marking>)
      requires Valid()
      modifies this`tempLines
      ensures Valid() && tempLines == old(tempLines)[c := line]
      ensures tempLines[c] == line && tempLines[c.Opposite()] == old(tempLines)[c.Opposite()]
    {
      tempLines := tempLines[c := line];
    }

    method SetFinishedLine(c: CanvasId, line: Option<Marking>)
      requires Valid()
      modifies this`finishedLines
      ensures Valid() && finishedLines == old(finishedLines)[c := line]
      ensures finishedLines[c] == line && finishedLines[c.Opposite()] == old(finishedLines)[c.Opposite()]
    {
      finishedLines := finishedLines[c := line];
    }

    method ClearLine(c: CanvasId)
      requires Valid()
      modifies this`tempLines, this`finishedLines
      ensures Valid()
      ensures tempLines == old(tempLines)[c := None] && finishedLines == old(finishedLines)[c := None]
      ensures tempLines[c].None? && finishedLines[c].None?
      ensures tempLines[c.Opposite()] == old(tempLines)[c.Opposite()]
      ensures finishedLines[c.Opposite()] == old(finishedLines)[c.Opposite()]
    {
      tempLines := tempLines[c := None];
      finishedLines := finishedLines[c := None];
    }

    method ClearAll()
      requires Valid()
      modifies this`tempLines, this`finishedLines
      ensures Valid() && tempLines == NoLines && finishedLines == NoLines
    {
      tempLines := map[Left := None, Right := None];
      finishedLines := map[Left := None, Right := None];
    }

    method SetCalibration(c: CanvasId, k: Calibration)
      requires Valid()
      modifies this`calibration
      ensures Valid() && calibration == old(calibration)[c := k]
      ensures calibration[c] == k && calibration[c.Opposite()] == old(calibration)[c.Opposite()]
    {
      calibration := calibration[c := k];
    }

    method GetFinishedLine(c: CanvasId) returns (line: Option<Marking>)
      requires Valid()
      ensures line == finishedLines[c]
    {
      line := finishedLines[c];
    }

    method GetTempLine(c: CanvasId) returns (line: Option<Marking>)
      requires Valid()
      ensures line == tempLines[c]
    {
      line := tempLines[c];
    }
  }
}
