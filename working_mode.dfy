/** Switching the working mode also unhides every marking type. The
    working-mode store itself is not part of this model; its mode is kept
    here as an optional name that `resetWorkingMode` clears. */
module WorkingMode {
  import opened Wrappers
  import MarkingTypes

  class Store {
    var workingMode: Option<string>

    constructor ()
      ensures workingMode.None?
    {
      workingMode := None;
    }

    method SetWorkingMode(mode: string, types: MarkingTypes.Store)
      modifies this, types`hiddenTypes
      ensures workingMode == Some(mode)
      ensures types.hiddenTypes == []
    {
      workingMode := Some(mode);
      types.ResetVisibility();
    }

    method ResetWorkingMode(types: MarkingTypes.Store)
      modifies this, types`hiddenTypes
      ensures workingMode.None?
      ensures types.hiddenTypes == []
    {
      workingMode := None;
      types.ResetVisibility();
    }
  }
}
