# Forensic Biometrics Studio — a verified model of its core

Forensic Biometrics Studio is a desktop application (a Tauri shell around a
React and Pixi front end) for comparing two fingerprint images side by side.
An examiner places markings on each canvas: points, rays, line segments,
measurements, bounding boxes, polygons and rectangles. Each marking has a
user-defined marking type. The examiner can also draw free-hand or straight
tracing paths with undo and redo. Other features are a measuring tool,
saving markings and tracings, and loading tracings back. The SourceAFIS
command-line tool can add minutiae as ray markings automatically. An edit
window adjusts an image and calibrates its DPI against a ruler.

This project models that core in Dafny and proves what it promises:

- **Stores.** These are the per-canvas tracing store (a linear undo/redo
  history), the marking-type registry, the per-canvas markings and
  measurement stores, the dashboard toolbar and the working mode. Each is a
  class, and each action states its complete new state.
- **Construction machines.** The tracing overlay's pointer handlers, the
  measurement plugin and the measurement marking handler. Their stages are
  fields, and each handler's effect is stated stage by stage.
- **Marking geometry and render decisions.** Viewport projection, distance,
  rotation about the image centre, font choice, the blink window, the
  measurement readout, bounding-box and polygon rules, the class dispatch,
  type resolution, layer alpha, the hidden-type filter and the cross-canvas
  information table.
- **Serialisers and validators.** The markings and tracing export records,
  the tracing import validator (round trip included), the save and load
  flows as ordered effects, the SourceAFIS converter and type resolution,
  the external-tool plan and output checks, and the error family.
- **Calibration.** Line sampling and the valley detector. It is proved
  against an independent reference definition: the first minima of the
  maximal below-threshold runs, spaced. Also the calibration click machine
  and its scale factor.
- **Strings and paths.** The edited-image file name, the free-path search,
  the Rust URL encoder of the edit window (with what the edit window reads
  back), and the bitmap font sizes loaded.

Time, random ids, hashes, file-system answers, dialogs, `sqrt`, `cos` and
`sin`, and path helpers (`basename`, `extname`, `join`) are parameters of
the members that use them. Numbers are exact reals or integers.

Three behaviours follow the code as written and may surprise a reader:

- The information table does not exclude measurement markings.
- Millimetres are shown only when the unit is exactly `mm`.
- SourceAFIS kind `ending` resolves to the bifurcation type, as written.

The two mapping tests that expect the opposite mapping, the quarter-turn and
type disagreement between the two SourceAFIS converters, and the edit
window's double decoding of the image path are each stated as a lemma
about the code as written.

## Model

| member | source | states |
|---|---|---|
| TracingStore.ClonePoints | src/lib/stores/Tracing/Tracing.store.ts:41 | a point-by-point copy yields the same points |
| TracingStore.ClonePaths | src/lib/stores/Tracing/Tracing.store.ts:38-42 | deep copying the paths preserves their contents |
| TracingStore.WithPath | src/lib/stores/Tracing/Tracing.store.ts:62-66 | `addPath` appends the path at the end and leaves both history stacks untouched |
| TracingStore.Cleared | src/lib/stores/Tracing/Tracing.store.ts:68-79 | `clearPaths` pushes the current paths onto `past`, empties `future` and empties the paths |
| TracingStore.Snapshotted | src/lib/stores/Tracing/Tracing.store.ts:81-91 | `snapshot` pushes a copy of the paths onto `past`, empties `future` and keeps the paths |
| TracingStore.Undone | src/lib/stores/Tracing/Tracing.store.ts:93-111 | with an empty `past` the state is unchanged; otherwise the top of `past` becomes the paths and the current paths are pushed onto `future` |
| TracingStore.Redone | src/lib/stores/Tracing/Tracing.store.ts:113-131 | with an empty `future` the state is unchanged; otherwise the top of `future` becomes the paths and the current paths are pushed onto `past` |
| TracingStore.Loaded | src/lib/stores/Tracing/Tracing.store.ts:133-141 | `loadPaths` installs a copy of the given paths and forgets both stacks |
| TracingStore.UndoRedoConserveHistory | src/lib/stores/Tracing/Tracing.store.ts:93-131 | undo and redo only move entries between the stacks: their total size is unchanged |
| TracingStore.RedoAfterUndo | src/lib/stores/Tracing/Tracing.store.ts:93-131 | a redo right after an effective undo restores the exact state |
| TracingStore.UndoAfterRedo | src/lib/stores/Tracing/Tracing.store.ts:93-131 | an undo right after an effective redo restores the exact state |
| TracingStore.UndoAfterSnapshotAndAdd | src/lib/stores/Tracing/Tracing.store.ts:62-111 | snapshot, add a path, undo: the paths and `past` are as before and the drawn state is the only redo entry |
| TracingStore.UndoAfterClear | src/lib/stores/Tracing/Tracing.store.ts:68-111 | an undo after `clearPaths` brings the cleared paths back |
| TracingStore.LoadForgetsHistory | src/lib/stores/Tracing/Tracing.store.ts:133-141 | after `loadPaths` neither undo nor redo changes anything |
| TracingStore.Store.constructor | src/lib/stores/Tracing/Tracing.store.ts:44-56 | a new store starts from `INITIAL_STATE`: no paths and empty stacks |
| TracingStore.Store.Set | src/lib/stores/Tracing/Tracing.store.ts:59 | the external `set` replaces the whole state |
| TracingStore.Store.Reset | src/lib/stores/Tracing/Tracing.store.ts:60 | `reset` returns to `INITIAL_STATE` |
| TracingStore.Store.AddPath | src/lib/stores/Tracing/Tracing.store.ts:62-66 | the store's new state is `WithPath` of the old one |
| TracingStore.Store.ClearPaths | src/lib/stores/Tracing/Tracing.store.ts:68-79 | the store's new state is `Cleared` of the old one |
| TracingStore.Store.Snapshot | src/lib/stores/Tracing/Tracing.store.ts:81-91 | the store's new state is `Snapshotted` of the old one |
| TracingStore.Store.Undo | src/lib/stores/Tracing/Tracing.store.ts:93-111 | the store's new state is `Undone` of the old one |
| TracingStore.Store.Redo | src/lib/stores/Tracing/Tracing.store.ts:113-131 | the store's new state is `Redone` of the old one |
| TracingStore.Store.LoadPaths | src/lib/stores/Tracing/Tracing.store.ts:133-141 | the store's new state is `Loaded` of the old one |
| TracingStore.Registry.constructor | src/lib/stores/Tracing/Tracing.store.ts:147 | the registry starts empty |
| TracingStore.Registry.Get | src/lib/stores/Tracing/Tracing.store.ts:149-158 | a known key returns its store and changes nothing; an unknown key gets a fresh store in the initial state, remembered under that key |
| TracingOverlay.NewPath | src/components/pixi/overlays/tracing-overlay.tsx:129-144 | the new path carries the fresh id and the current color, opacity and brush size; free mode starts it at the click, line mode gives it two points ending at the click |
| TracingOverlay.LineContinuation | src/components/pixi/overlays/tracing-overlay.tsx:110-127 | a line path starts at the last point of the last path exactly when that path is the last one started, has the same color, opacity and brush size and has a point; otherwise it is the segment from the click to the click |
| TracingOverlay.MoveFirst | src/components/pixi/overlays/tracing-overlay.tsx:165-180 | a pointer-move keeps the number of paths |
| TracingOverlay.FindIndex | src/components/pixi/overlays/tracing-overlay.tsx:166 | `find` by id yields the first path with that id, or none when no path carries it |
| TracingOverlay.MoveFirstSpec | src/components/pixi/overlays/tracing-overlay.tsx:165-180 | a pointer-move edits exactly the first path with the current id and leaves every other path; with no such path nothing changes |
| TracingOverlay.MovePathPoints | src/components/pixi/overlays/tracing-overlay.tsx:169-178 | line mode overwrites the last point when there are at least two and otherwise changes nothing; free mode appends the point; the path's other fields stay |
| TracingOverlay.Overlay.constructor | src/components/pixi/overlays/tracing-overlay.tsx:91-92 | no current path and no continuation reference at mount |
| TracingOverlay.Overlay.PointerDown | src/components/pixi/overlays/tracing-overlay.tsx:94-145 | disabled or without a viewport nothing changes; the right button only forgets the continuation reference; any other button pauses dragging, makes the fresh id current and last active, snapshots and appends the new path |
| TracingOverlay.Overlay.PointerMove | src/components/pixi/overlays/tracing-overlay.tsx:159-183 | without a current path (or disabled, or no viewport) nothing changes; otherwise only the paths change, by the first-match point edit |
| TracingOverlay.Overlay.PointerUp | src/components/pixi/overlays/tracing-overlay.tsx:185-189 | when enabled with a viewport, dragging resumes and the current path ends; the continuation reference is kept |
| TracingOverlay.PointerDownIsUndoable | src/components/pixi/overlays/tracing-overlay.tsx:133-144 | the snapshot taken before each new path makes the next undo remove that path and restore the history before the click |
| DashboardToolbarState.InitialDefaults | src/lib/stores/DashboardToolbar/DashboardToolbar.store.ts:41-61 | the initial settings: selection cursor, point markings, unlocked viewport without scale sync, disabled tracing in red, opacity 1, brush size 2, free mode |
| DashboardToolbar.ToggleLocked | src/lib/stores/DashboardToolbar/DashboardToolbar.ts:46-52 | flips the viewport lock and changes nothing else |
| DashboardToolbar.ToggleScaleSync | src/lib/stores/DashboardToolbar/DashboardToolbar.ts:60-66 | flips scale sync and changes nothing else |
| DashboardToolbar.ToggleTracing | src/lib/stores/DashboardToolbar/DashboardToolbar.ts:92-98 | flips `tracing.isEnabled` and changes nothing else |
| DashboardToolbar.TogglesAreInvolutions | src/lib/stores/DashboardToolbar/DashboardToolbar.ts:46-98 | toggling twice restores the settings, for each of the three toggles |
| DashboardToolbar.TogglesAreIndependent | src/lib/stores/DashboardToolbar/DashboardToolbar.ts:46-66 | each viewport toggle keeps the other flag, and the two toggles commute |
| DashboardToolbar.Toolbar.constructor | src/lib/stores/DashboardToolbar/DashboardToolbar.store.ts:63-69 | the store starts from the initial settings, with no event dispatched |
| DashboardToolbar.Toolbar.Reset | src/lib/stores/DashboardToolbar/DashboardToolbar.store.ts:68 | `reset` restores the initial settings |
| DashboardToolbar.Toolbar.ToggleLockedViewport | src/lib/stores/DashboardToolbar/DashboardToolbar.ts:46-52 | the settings become their lock toggle |
| DashboardToolbar.Toolbar.SetLockedViewport | src/lib/stores/DashboardToolbar/DashboardToolbar.ts:53-59 | only `viewport.locked` changes, to the argument |
| DashboardToolbar.Toolbar.ToggleLockScaleSync | src/lib/stores/DashboardToolbar/DashboardToolbar.ts:60-66 | the settings become their scale-sync toggle |
| DashboardToolbar.Toolbar.SetLockScaleSync | src/lib/stores/DashboardToolbar/DashboardToolbar.ts:67-73 | only `viewport.scaleSync` changes, to the argument |
| DashboardToolbar.Toolbar.SetCursorMode | src/lib/stores/DashboardToolbar/DashboardToolbar.ts:18-25 | only the cursor mode changes, and exactly one CLEANUP event is dispatched, even when the mode is unchanged |
| DashboardToolbar.Toolbar.SetIsEnabled | src/lib/stores/DashboardToolbar/DashboardToolbar.ts:85-91 | only `tracing.isEnabled` changes, to the argument |
| DashboardToolbar.Toolbar.ToggleIsEnabled | src/lib/stores/DashboardToolbar/DashboardToolbar.ts:92-98 | the settings become their tracing toggle |
| DashboardToolbar.Toolbar.SetColor | src/lib/stores/DashboardToolbar/DashboardToolbar.ts:99-105 | only the tracing color changes |
| DashboardToolbar.Toolbar.SetOpacity | src/lib/stores/DashboardToolbar/DashboardToolbar.ts:106-112 | only the tracing opacity changes |
| DashboardToolbar.Toolbar.SetBrushSize | src/lib/stores/DashboardToolbar/DashboardToolbar.ts:113-119 | only the tracing brush size changes |
| DashboardToolbar.Toolbar.SetMode | src/lib/stores/DashboardToolbar/DashboardToolbar.ts:120-126 | only the tracing mode changes |
| WorkingMode.Store.constructor | src/lib/stores/WorkingMode/WorkingMode.ts:7-13 | no working mode is chosen at first |
| WorkingMode.Store.SetWorkingMode | src/lib/stores/WorkingMode/WorkingMode.ts:15-18 | the mode is set and every marking type becomes visible again |
| WorkingMode.Store.ResetWorkingMode | src/lib/stores/WorkingMode/WorkingMode.ts:19-22 | the mode is cleared and every marking type becomes visible again |
| Json.HasKey | src/lib/utils/viewport/loadTracingDataWithDialog.ts:22-27 | `key in v` is answered for objects and arrays and throws on every other value |
| Strings.DigitChar | src/components/pixi/overlays/markings/marking.utils.tsx:205 | a decimal digit prints as a character from '0' to '9' |
| Strings.NatToString | src/components/pixi/overlays/markings/marking.utils.tsx:205 | a natural number prints as a non-empty string of digits, one digit for numbers below ten |
| Strings.DigitRoundTrip | src/components/pixi/overlays/markings/marking.utils.tsx:205 | a printed digit reads back as the same digit |
| Strings.NatToStringValue | src/components/pixi/overlays/markings/marking.utils.tsx:205 | reading the printed digits back gives the number |
| Strings.NatToStringInjective | src/components/pixi/overlays/markings/marking.utils.tsx:205 | distinct numbers print differently |
| Strings.IntToString | src/lib/external-tools/core/errors.ts:20 | a signed number prints as its digits, with a leading '-' when negative |
| Strings.SignChar | src/lib/external-tools/core/errors.ts:43 | a printed number starts with '-' exactly when it is negative |
| Strings.IntToStringInjective | src/lib/external-tools/core/errors.ts:43 | distinct signed numbers print differently |
| SaveTracing.PointsToJson | src/lib/utils/viewport/saveTracingDataWithDialog.ts:37-39 | every point of a path is exported |
| SaveTracing.PathsToJson | src/lib/utils/viewport/saveTracingDataWithDialog.ts:37-39 | every path is exported |
| SaveTracing.ExportRecord | src/lib/utils/viewport/saveTracingDataWithDialog.ts:30-40 | the export object has exactly the keys `metadata` and `data`, and `data.paths` holds the exported paths |
| SaveTracing.TracingData | src/lib/utils/viewport/saveTracingDataWithDialog.ts:24-43 | without a canvas id it fails with "Canvas ID not found"; otherwise it exports the paths of that canvas's store |
| SaveTracing.DefaultFileName | src/lib/utils/viewport/saveTracingDataWithDialog.ts:57-81 | `tracing.json` when there is no picture or it has no name; otherwise the picture's base name followed by `.paint.json`, and a rejection exactly when awaiting `basename` rejects |
| SaveTracing.SaveFlow | src/lib/utils/viewport/saveTracingDataWithDialog.ts:49-93 | without a viewport only the error dialog shows; a rejected `basename` ends in the error toast before any dialog; otherwise the save dialog opens first and a rejected dialog ends in the error toast; a file is written exactly when a path was chosen and the canvas id is known, and it holds the export record; the success toast follows exactly a write that resolved, as the last effect; with a viewport, the error toast shows exactly when neither the success toast nor a cancel ends the flow |
| LoadTracing.ValidateFileDataAccepts | src/lib/utils/viewport/loadTracingDataWithDialog.ts:17-30 | the validator accepts exactly the objects with `metadata.software.name` equal to "biometrics-studio" and an array at `data.paths` |
| LoadTracing.ValidateFileDataThrows | src/lib/utils/viewport/loadTracingDataWithDialog.ts:17-30 | the validator throws exactly when an `in` probe meets a primitive or null after every earlier conjunct held |
| LoadTracing.PointsRoundTrip | src/lib/utils/viewport/loadTracingDataWithDialog.ts:58 | decoding exported points gives back the same points |
| LoadTracing.PathsRoundTrip | src/lib/utils/viewport/loadTracingDataWithDialog.ts:58 | decoding exported paths gives back the same paths |
| LoadTracing.PathRoundTrip | src/lib/utils/viewport/loadTracingDataWithDialog.ts:58 | decoding one exported path gives back its id, points, color, opacity and brush size |
| LoadTracing.ExportIsValid | src/lib/utils/viewport/loadTracingDataWithDialog.ts:17-30 | every exported record passes the loader's validation |
| LoadTracing.LoadPlan | src/lib/utils/viewport/loadTracingDataWithDialog.ts:32-64 | paths are loaded only from a well-shaped file, and over a non-empty canvas only after confirmation; a file that fails validation shows only the invalid-file dialog; the confirmation is asked exactly over a non-empty canvas with a well-shaped file; the success toast shows exactly when a well-shaped file is accepted and `clonePaths` does not throw on its items |
| LoadTracing.LoadTracingData | src/lib/utils/viewport/loadTracingDataWithDialog.ts:32-64 | the store is replaced by the loaded paths with an empty history when the plan loads them and is untouched otherwise |
| LoadTracing.SaveThenLoad | src/lib/utils/viewport/loadTracingDataWithDialog.ts:32-64 | a saved file loads back into exactly the saved paths whenever the canvas is empty or the user confirms |
| LoadTracing.ExportedPathsClone | src/lib/utils/viewport/loadTracingDataWithDialog.ts:58 | every exported path has an array of points, so cloning them on load cannot throw |
| LoadTracing.LoadWithDialog | src/lib/utils/viewport/loadTracingDataWithDialog.ts:66-88 | the open dialog comes first; a rejected dialog shows its error in a dialog; a missing canvas id after a chosen file shows the not-found dialog; the chosen file is loaded into that canvas exactly when a file was chosen and the canvas id is known |
| MarkingTypesState.Partialize | src/lib/stores/MarkingTypes/MarkingTypes.store.ts:33-36 | only the type list is persisted |
| MarkingTypesState.PersistenceIgnoresSelectionAndVisibility | src/lib/stores/MarkingTypes/MarkingTypes.store.ts:33-36 | states that differ only in the selection and the hidden list persist identically |
| MarkingTypes.FindType | src/lib/stores/MarkingTypes/MarkingTypes.ts:27-30 | `find` by id yields a stored type with that id exactly when one exists |
| MarkingTypes.Conflicts | src/lib/stores/MarkingTypes/MarkingTypes.ts:38-42 | the conflicts are exactly the stored types whose id occurs among the new types |
| MarkingTypes.WithoutIds | src/lib/stores/MarkingTypes/MarkingTypes.ts:46-48 | the survivors are exactly the stored types whose id does not occur among the new types |
| MarkingTypes.ConflictsPartition | src/lib/stores/MarkingTypes/MarkingTypes.ts:38-48 | every stored type is either a conflict or a survivor, never both |
| MarkingTypes.AddManyKeepsIdsUnique | src/lib/stores/MarkingTypes/MarkingTypes.ts:43-53 | `addMany` keeps ids unique and holds exactly the new types plus the stored types they do not replace |
| MarkingTypes.WithoutIdsUnique | src/lib/stores/MarkingTypes/MarkingTypes.ts:46-48 | filtering out the replaced types keeps ids unique |
| MarkingTypes.RemoveId | src/lib/stores/MarkingTypes/MarkingTypes.ts:61-66 | `removeById` keeps exactly the types with another id |
| MarkingTypes.PatchFirst | src/lib/stores/MarkingTypes/MarkingTypes.ts:70-80 | `setType` keeps the number of types |
| MarkingTypes.TypeIndex | src/lib/stores/MarkingTypes/MarkingTypes.ts:75 | the index of the first type with the id, or none when no type has it |
| MarkingTypes.PatchFirstSpec | src/lib/stores/MarkingTypes/MarkingTypes.ts:70-80 | `setType` overwrites the given fields of the first type with the id and nothing else; with no such type nothing changes |
| MarkingTypes.Toggle | src/lib/stores/MarkingTypes/MarkingTypes.ts:83-92 | the toggle pushes an absent id and splices out the first occurrence of a present one; no other id's membership changes |
| MarkingTypes.RemoveFirst | src/lib/stores/MarkingTypes/MarkingTypes.ts:89 | `splice(index, 1)` removes one occurrence of the id and keeps every other id |
| MarkingTypes.CountPositive | src/lib/stores/MarkingTypes/MarkingTypes.ts:85 | `indexOf` finds the id exactly when it occurs at least once |
| MarkingTypes.CountOneWhenUnique | src/lib/stores/MarkingTypes/MarkingTypes.ts:83-92 | in a duplicate-free list an id occurs at most once |
| MarkingTypes.ToggleFlips | src/lib/stores/MarkingTypes/MarkingTypes.ts:83-92 | on a duplicate-free hidden list the toggle flips exactly the toggled id and keeps the list duplicate-free |
| MarkingTypes.RemoveFirstKeepsUnique | src/lib/stores/MarkingTypes/MarkingTypes.ts:89 | splicing keeps a duplicate-free list duplicate-free |
| MarkingTypes.ToggleTwice | src/lib/stores/MarkingTypes/MarkingTypes.ts:83-92 | toggling twice restores every membership, and restores the list itself when the id was absent |
| MarkingTypes.RemoveLastAdded | src/lib/stores/MarkingTypes/MarkingTypes.ts:86-89 | splicing out an id that was just pushed restores the list |
| MarkingTypes.ToggleFromEmpty | src/lib/stores/MarkingTypes/MarkingTypes.ts:93-97 | after a visibility reset a toggle hides exactly that id |
| MarkingTypes.InUse | src/lib/stores/MarkingTypes/MarkingTypes.ts:54-60 | a type is in use exactly when some marking of the canvas carries its id |
| MarkingTypes.Store.constructor | src/lib/stores/MarkingTypes/MarkingTypes.store.ts:17-21 | no selection, no types, nothing hidden |
| MarkingTypes.Store.Reset | src/lib/stores/MarkingTypes/MarkingTypes.store.ts:28 | `reset` restores the initial state |
| MarkingTypes.Store.Set | src/lib/stores/MarkingTypes/MarkingTypes.store.ts:27 | the library's `set` replaces the state |
| MarkingTypes.Store.Select | src/lib/stores/MarkingTypes/MarkingTypes.ts:16-26 | a non-empty id naming no stored type is ignored; any other value, null included, becomes the selection |
| MarkingTypes.Store.Selected | src/lib/stores/MarkingTypes/MarkingTypes.ts:27-30 | the selected type is the first stored type with the selected id, or none |
| MarkingTypes.Store.Add | src/lib/stores/MarkingTypes/MarkingTypes.ts:33-37 | `add` appends the type |
| MarkingTypes.Store.GetConflicts | src/lib/stores/MarkingTypes/MarkingTypes.ts:38-42 | `getConflicts` returns the conflicts of the stored types and changes nothing |
| MarkingTypes.Store.AddManyTypes | src/lib/stores/MarkingTypes/MarkingTypes.ts:43-53 | `addMany` drops the replaced types and appends the new ones |
| MarkingTypes.Store.RemoveById | src/lib/stores/MarkingTypes/MarkingTypes.ts:61-69 | `removeById` removes every type with the id and clears the selection |
| MarkingTypes.Store.SetType | src/lib/stores/MarkingTypes/MarkingTypes.ts:70-80 | `setType` patches the first type with the id |
| MarkingTypes.Store.ToggleVisibility | src/lib/stores/MarkingTypes/MarkingTypes.ts:83-92 | the hidden list becomes its toggle |
| MarkingTypes.Store.ResetVisibility | src/lib/stores/MarkingTypes/MarkingTypes.ts:93-97 | the hidden list becomes empty |
| MarkingsStore.InitialState | src/lib/stores/Markings/Markings.store.ts:22-32 | the initial state has no markings, no selection, no temporary marking, the calibration 1 px per px and the hash drawn at module load |
| MarkingsStore.WithEndpoint | src/components/pixi/viewport/marking-handlers/measurementMarkingHandler.ts:55-57 | moving the endpoint keeps the label, origin, type, ids and the marking's class |
| MarkingsStore.CanvasStore.constructor | src/lib/stores/Markings/Markings.store.ts:34-41 | each store starts from the initial state with its own setter installed as `set` |
| MarkingsStore.CanvasStore.Reset | src/lib/stores/Markings/Markings.store.ts:22-40 | `reset` restores the initial state, including the hash drawn once at module load, and installs `INITIAL_STATE`'s no-op `set` |
| MarkingsStore.CanvasStore.Set | src/lib/stores/Markings/Markings.store.ts:31-39 | `set` replaces the state while it is the store's own setter, and changes nothing once `reset` has replaced it by the no-op |
| MarkingsStore.CanvasStore.ResetKeepingSetter | src/lib/stores/Markings/Markings.store.ts:39-40 | the intended `reset`: the initial state, with the store's setter kept |
| MarkingsStore.ResetThenSet | src/lib/stores/Markings/Markings.store.ts:31-40 | as written, `set` after `reset` leaves the store at its initial state whatever is set |
| MarkingsStore.ResetKeepingSetterThenSet | src/lib/stores/Markings/Markings.store.ts:39-40 | with the intended `reset`, a later `set` replaces the state |
| MarkingsStore.CanvasStore.AddOne | src/components/pixi/viewport/marking-handlers/measurementMarkingHandler.ts:77-79 | `addOne` appends the marking and publishes a new hash |
| MarkingsStore.CanvasStore.GetLabel | src/components/pixi/viewport/marking-handlers/measurementMarkingHandler.ts:27 | each label handed out is the counter, and the counter grows by one |
| MarkingsStore.CanvasStore.SetTemporaryMarking | src/components/pixi/viewport/marking-handlers/measurementMarkingHandler.ts:36-38 | the temporary marking is replaced |
| MarkingsStore.CanvasStore.UpdateTemporaryOrigin | src/components/pixi/viewport/marking-handlers/measurementMarkingHandler.ts:51-53 | an existing temporary marking gets the new origin; without one nothing changes |
| MarkingsStore.CanvasStore.UpdateTemporaryEndpoint | src/components/pixi/viewport/marking-handlers/measurementMarkingHandler.ts:55-57 | an existing temporary marking gets the new endpoint; without one nothing changes |
| MarkingsStore.Stores.constructor | src/lib/stores/Markings/Markings.store.ts:34-44 | one independent store per canvas id, both starting from the same initial state with a working `set` |
| MarkingsStore.Stores.Get | src/lib/stores/Markings/Markings.store.ts:34 | each canvas id selects its own store |
| MeasurementStoreState.InitialIsEmpty | src/lib/stores/Measurement/Measurement.store.ts:14-27 | both canvases start with no temporary line, no finished line and the calibration 1 px per px |
| MeasurementStore.Store.constructor | src/lib/stores/Measurement/Measurement.store.ts:29-39 | the store starts from the initial state |
| MeasurementStore.Store.Reset | src/lib/stores/Measurement/Measurement.store.ts:35 | `reset` restores the initial state |
| MeasurementStore.Store.SetTempLine | src/lib/stores/Measurement/Measurement.ts:17-22 | the canvas's temporary line becomes the given one; the other canvas's temporary line and every other entry stay as they were |
| MeasurementStore.Store.SetFinishedLine | src/lib/stores/Measurement/Measurement.ts:23-31 | the canvas's finished line becomes the given one; the other canvas's finished line and every other entry stay as they were |
| MeasurementStore.Store.ClearLine | src/lib/stores/Measurement/Measurement.ts:32-39 | both lines of the canvas become null; the other canvas keeps its lines as they were |
| MeasurementStore.Store.ClearAll | src/lib/stores/Measurement/Measurement.ts:40-51 | every line of both canvases becomes null; calibrations stay |
| MeasurementStore.Store.SetCalibration | src/lib/stores/Measurement/Measurement.ts:52-57 | the canvas's calibration becomes the given one; the other canvas's calibration stays as it was |
| MeasurementStore.Store.GetFinishedLine | src/lib/stores/Measurement/Measurement.ts:58-61 | returns the canvas's finished line |
| MeasurementStore.Store.GetTempLine | src/lib/stores/Measurement/Measurement.ts:62-65 | returns the canvas's temporary line |
| LineSegmentMarking.New | src/lib/markings/LineSegmentMarking.ts:5-16 | the constructor keeps label, origin, type id, endpoint and ids, and the class is LINE_SEGMENT |
| LineSegmentMarking.OriginViewportPosition | src/lib/markings/LineSegmentMarking.ts:18-26 | the origin scaled by the width and height ratios |
| LineSegmentMarking.EndpointViewportPosition | src/lib/markings/LineSegmentMarking.ts:28-36 | the endpoint scaled by the width and height ratios |
| LineSegmentMarking.UnitRatiosAreIdentity | src/lib/markings/LineSegmentMarking.ts:18-36 | with unit ratios both projections are the stored points |
| LineSegmentMarking.ProjectionsCompose | src/lib/markings/LineSegmentMarking.ts:18-36 | projecting twice is projecting once with the products of the ratios |
| MeasurementMarking.New | src/lib/markings/MeasurementMarking.ts:5-16 | the class is MEASUREMENT |
| MeasurementMarking.ForwardsToLineSegment | src/lib/markings/MeasurementMarking.ts:8-16 | the constructor forwards every argument to the line segment's, so the two agree on every field and on both projections |
| MeasurementMarking.OmittedIdsStayUndefined | src/lib/markings/MeasurementMarking.ts:13 | omitting `ids` leaves them undefined |
| DistanceMarking.New | src/lib/markings/DistanceMarking.ts:4-6 | a distance marking is a line segment classed LINE_SEGMENT |
| DistanceMarking.DistanceProperties | src/lib/markings/DistanceMarking.ts:11-15 | the length is never negative, is zero for a degenerate segment and does not depend on the direction |
| CachedViewport.Store.SetRayPosition | src/components/pixi/viewport/marking-handlers/measurementMarkingHandler.ts:64-70 | the ray position becomes the given point |
| MeasurementHandler.Handler.constructor | src/components/pixi/viewport/marking-handlers/measurementMarkingHandler.ts:15-39 | creating the handler draws the next label and sets the temporary marking to a zero-length measurement of the chosen type at the pointer, in stage one |
| MeasurementHandler.Handler.MouseMove | src/components/pixi/viewport/marking-handlers/measurementMarkingHandler.ts:41-58 | stage one moves the temporary marking's origin, stage two its endpoint; label and type stay |
| MeasurementHandler.Handler.LeftButtonUp | src/components/pixi/viewport/marking-handlers/measurementMarkingHandler.ts:60-71 | the release that ends stage one moves to stage two and publishes the ray position; later releases change nothing |
| MeasurementHandler.Handler.LeftButtonDown | src/components/pixi/viewport/marking-handlers/measurementMarkingHandler.ts:73-81 | in stage two the temporary marking is committed under a new hash and a cleanup follows; in stage one nothing changes |
| MeasurementHandler.Gesture | src/components/pixi/viewport/marking-handlers/measurementMarkingHandler.ts:15-81 | the whole gesture commits one measurement with the drawn label and chosen type from the first moved-to point to the second, and advances the label generator |
| MeasurementPlugin.StartLine | src/components/pixi/viewport/plugins/measurementPlugin.ts:98 | a press starts a measurement line with label 0 and type id `__measurement__` whose origin and endpoint are both the pointer |
| MeasurementPlugin.MovedLine | src/components/pixi/viewport/plugins/measurementPlugin.ts:133-147 | stage one moves the origin and keeps the endpoint, stage two moves the endpoint and keeps the origin; label and type stay and ids are dropped |
| MeasurementPlugin.Down | src/components/pixi/viewport/plugins/measurementPlugin.ts:180-186 | a press goes to the drag plugin exactly when measurement mode is active and it is a middle press or a left press with Space held |
| MeasurementPlugin.LeftPressGoesOneWay | src/components/pixi/viewport/plugins/measurementPlugin.ts:69-81 | in measurement mode a left press is either drawn or dragged, never both and never neither; no other button draws |
| MeasurementPlugin.Plugin.constructor | src/components/pixi/viewport/plugins/measurementPlugin.ts:21-38 | no line, stage one, Space not held, no drawing listeners |
| MeasurementPlugin.Plugin.Destroy | src/components/pixi/viewport/plugins/measurementPlugin.ts:40-45 | the drawing listeners are unregistered |
| MeasurementPlugin.Plugin.KeyDown | src/components/pixi/viewport/plugins/measurementPlugin.ts:61-63 | pressing Space sets the flag, other keys leave it |
| MeasurementPlugin.Plugin.KeyUp | src/components/pixi/viewport/plugins/measurementPlugin.ts:65-67 | releasing Space clears the flag, other keys leave it |
| MeasurementPlugin.Plugin.Cleanup | src/components/pixi/viewport/plugins/measurementPlugin.ts:47-52 | the listeners go, the line is dropped, the stage returns to one and the canvas's temporary line becomes null |
| MeasurementPlugin.Plugin.Interrupt | src/components/pixi/viewport/plugins/measurementPlugin.ts:105-107 | while registered, an interrupt cleans up; otherwise nothing changes |
| MeasurementPlugin.Plugin.MouseDown | src/components/pixi/viewport/plugins/measurementPlugin.ts:69-81 | a left press without Space in measurement mode starts a line in stage one when the viewport has content and finishes it in stage two; every other press changes nothing; calibrations never change |
| MeasurementPlugin.Plugin.StartDrawing | src/components/pixi/viewport/plugins/measurementPlugin.ts:83-103 | an empty viewport changes nothing; otherwise the line starts at the pointer, is mirrored into the store and the listeners are registered |
| MeasurementPlugin.Plugin.FinishDrawing | src/components/pixi/viewport/plugins/measurementPlugin.ts:162-178 | the line's endpoint becomes the ray position, the line becomes the canvas's finished line, the temporary line becomes null, the stage returns to one and the listeners go |
| MeasurementPlugin.Plugin.MouseMove | src/components/pixi/viewport/plugins/measurementPlugin.ts:123-149 | while registered and in measurement mode the line moves and is mirrored into the store; otherwise nothing changes |
| MeasurementPlugin.Plugin.LeftButtonUp | src/components/pixi/viewport/plugins/measurementPlugin.ts:151-160 | the release that ends stage one enters stage two and publishes the line's endpoint as the ray position; otherwise nothing changes |
| MeasurementPlugin.Gesture | src/components/pixi/viewport/plugins/measurementPlugin.ts:69-178 | press, drag to a, release, move to b finishes a line from a to b, and the release publishes the press position as the ray |
| MarkingRender.TransformPoint | src/components/pixi/overlays/markings/marking.utils.tsx:20-37 | a zero rotation returns the point itself; any other rotation turns it about the centre |
| MarkingRender.PivotIsFixed | src/components/pixi/overlays/markings/marking.utils.tsx:20-37 | the centre is fixed by every rotation |
| MarkingRender.FullTurnIsIdentity | src/components/pixi/overlays/markings/marking.utils.tsx:27-36 | a rotation with cosine 1 and sine 0 changes no point |
| MarkingRender.RotationKeepsRadius | src/components/pixi/overlays/markings/marking.utils.tsx:29-36 | a rotation keeps the distance to the centre |
| MarkingRender.Ceil | src/components/pixi/overlays/markings/marking.utils.tsx:45 | `Math.ceil` yields the least integer not below its argument |
| MarkingRender.FontSize | src/components/pixi/overlays/markings/marking.utils.tsx:41-46 | the font size is the ceiling clamped to 6..32 |
| MarkingRender.FontName | src/components/pixi/overlays/markings/marking.utils.tsx:39-49 | the font name is "Cousine" followed by a space and the clamped size |
| MarkingRender.FontNameNamesSize | src/components/pixi/overlays/markings/marking.utils.tsx:39-49 | two sizes get the same font exactly when their clamped sizes agree, and the number in the name reads back as the clamped size |
| MarkingRender.BlinkAlternates | src/components/pixi/overlays/markings/marking.utils.tsx:460-461 | one period later the blink phase is the opposite one |
| MarkingRender.Blinker.constructor | src/components/pixi/overlays/markings/marking.utils.tsx:448 | nothing blinks at first |
| MarkingRender.Blinker.BlinkMarking | src/components/pixi/overlays/markings/marking.utils.tsx:450-453 | the blink state records the label, the end time `now + flashes * 2 * periodMs` and the period |
| MarkingRender.Blinker.BlinkMarkingDefault | src/components/pixi/overlays/markings/marking.utils.tsx:450 | the defaults are three flashes of 150 ms, a 900 ms window |
| MarkingRender.Emphasize | src/components/pixi/overlays/markings/marking.utils.tsx:478-480 | while the marking blinks the phase decides its emphasis, otherwise its selection |
| MarkingRender.BlinkWindow | src/components/pixi/overlays/markings/marking.utils.tsx:450-458 | after `blinkMarking` the window is open exactly until its end time, other labels keep their selection emphasis, and after the window the blinking label does too |
| MarkingRender.BlinkPhaseFlips | src/components/pixi/overlays/markings/marking.utils.tsx:478-480 | inside the window the blinking label's emphasis flips each period |
| MarkingRender.MeasurementReadout | src/components/pixi/overlays/markings/marking.utils.tsx:108-122 | nothing is drawn below 0.1 px; millimetres are shown exactly when the calibration unit is "mm" with a positive pixels-per-unit, pixels otherwise; the readout carries the image-space length |
| MarkingRender.ReadoutProperties | src/components/pixi/overlays/markings/marking.utils.tsx:108-112 | a degenerate measurement shows nothing, and the readout does not depend on which end is the origin |
| MarkingRender.BoundingRect | src/components/pixi/overlays/markings/marking.utils.tsx:333-336 | the rectangle has non-negative sides and spans exactly from the smaller to the larger coordinate of the two corners |
| MarkingRender.BoundingRectCornerIndependent | src/components/pixi/overlays/markings/marking.utils.tsx:321-338 | the same rectangle comes from either pair of opposite corners, in either order |
| MarkingRender.PlanPolygon | src/components/pixi/overlays/markings/marking.utils.tsx:392-425 | no points draw nothing; otherwise the outline runs through the points, closing back to the first and filling exactly when there are more than two |
| MarkingRender.PlaceAll | src/components/pixi/overlays/markings/marking.utils.tsx:592-597 | every polygon point is scaled by the viewport ratios and then rotated |
| MarkingRender.DrawMarking | src/components/pixi/overlays/markings/marking.utils.tsx:463-603 | each marking class selects its own figure, polygons and rectangles sharing one; label, type and emphasis are kept; measurements read out from the image-space points |
| MarkingRender.NeutralViewDrawsStoredPoints | src/components/pixi/overlays/markings/marking.utils.tsx:483-560 | with unit ratios and no rotation a segment is drawn between its stored points, and a measurement's readout ignores the view |
| MarkingsLayer.ResolveType | src/components/pixi/overlays/markings/markings.tsx:84-91 | "__measurement__" resolves to the synthetic measurement type before any user type; every other id resolves to the first stored type with that id; a resolved type carries the id |
| MarkingsLayer.Alpha | src/components/pixi/overlays/markings/markings.tsx:110 | the layer's alpha is 1 or 0.5: a given alpha decides by whether it is non-zero, otherwise the label setting decides |
| MarkingsLayer.DrawingOf | src/components/pixi/overlays/markings/markings.tsx:84-105 | a marking is drawn exactly when its type resolves, with its own label and type, emphasised by the blink or its selection |
| MarkingsLayer.DrawingsAppend | src/components/pixi/overlays/markings/markings.tsx:83-106 | drawing one more marking adds its drawing, if any, at the end |
| MarkingsLayer.DrawingsConcat | src/components/pixi/overlays/markings/markings.tsx:83-106 | drawing a concatenation draws each part in turn |
| MarkingsLayer.SkipsUnresolved | src/components/pixi/overlays/markings/markings.tsx:92 | a marking whose type does not resolve is skipped without affecting the markings after it |
| MarkingsLayer.DrawnInListOrder | src/components/pixi/overlays/markings/markings.tsx:83-106 | when every type resolves, the i-th drawing is the i-th marking's |
| MarkingsLayer.SelectedIffLabelEqual | src/components/pixi/overlays/markings/markings.tsx:95 | with no blink running, a marking is emphasised exactly when its label is the selected one |
| MarkingsLayer.DrawMarkings | src/components/pixi/overlays/markings/markings.tsx:67-111 | a redraw clears everything, draws exactly the resolved markings in list order and sets the alpha |
| MarkingOverlay.Visible | src/components/pixi/overlays/marking-overlay.tsx:36-38 | the visible markings are exactly the committed markings whose type is not hidden |
| MarkingOverlay.VisibleConcat | src/components/pixi/overlays/marking-overlay.tsx:36-38 | the filter keeps order: it distributes over concatenation |
| MarkingOverlay.VisibleLaws | src/components/pixi/overlays/marking-overlay.tsx:36-38 | with nothing hidden every marking shows, and filtering twice is filtering once |
| MarkingOverlay.Ratios | src/components/pixi/overlays/marking-overlay.tsx:66-80 | the ratios are the screen sizes per world unit in each direction |
| MarkingOverlay.RotationCentre | src/components/pixi/overlays/marking-overlay.tsx:86-91 | the centre is the sprite's middle scaled by the ratios, or the origin when there is no sprite |
| MarkingOverlay.Layers | src/components/pixi/overlays/marking-overlay.tsx:82-158 | nothing renders without a viewport or an application; otherwise the filtered committed markings come first, then one opaque single-marking layer for each of the temporary marking, the temporary and finished auto-rotate lines and the temporary and finished measurement lines that exist, in that order: each existing one is exactly the layer after the committed layer and the existing ones before it |
| MarkingOverlay.Tops | src/components/pixi/overlays/marking-overlay.tsx:102-156 | one opaque layer per optional marking that exists, in source order: the temporary marking, the temporary and finished auto-rotate lines, the temporary and finished measurement lines, each at the index given by the existing ones before it and holding exactly that marking |
| MarkingOverlay.LayerAlphas | src/components/pixi/overlays/marking-overlay.tsx:95-156 | the committed layer's alpha follows the label setting and every layer on top is opaque; a hidden type does not hide the temporary marking |
| MarkingOverlay.Observe | src/components/pixi/overlays/marking-overlay.tsx:24-32 | the subscription yields a new snapshot only when the hash differs from the last one seen |
| MarkingOverlay.HashGatesUpdates | src/components/pixi/overlays/marking-overlay.tsx:29-31 | any run of updates that keep the hash leaves the observed markings as they were |
| MarkingsInfo.Labels | src/components/information-tabs/markings-info/markings-info.tsx:79 | the labels of this canvas's markings, in order |
| MarkingsInfo.NewLabels | src/components/information-tabs/markings-info/markings-info.tsx:85 | exactly the opposite canvas's markings whose label does not occur on this canvas |
| MarkingsInfo.AllIds | src/components/information-tabs/markings-info/markings-info.tsx:78 | the id set holds exactly the ids of this canvas's markings |
| MarkingsInfo.Insert | src/components/information-tabs/markings-info/markings-info.tsx:87 | inserting one marking into a list adds one element |
| MarkingsInfo.SortByLabel | src/components/information-tabs/markings-info/markings-info.tsx:87 | the sort keeps the number of rows |
| MarkingsInfo.InsertKeepsElements | src/components/information-tabs/markings-info/markings-info.tsx:87 | inserting adds exactly that marking to the list's elements |
| MarkingsInfo.InsertKeepsSorted | src/components/information-tabs/markings-info/markings-info.tsx:87 | inserting into a label-sorted list keeps it sorted |
| MarkingsInfo.SortByLabelCorrect | src/components/information-tabs/markings-info/markings-info.tsx:87 | the sort orders the rows by label and is a permutation of its input |
| MarkingsInfo.ToEntries | src/components/information-tabs/markings-info/markings-info.tsx:88-92 | a row is shown whole exactly when it shares an id with this canvas, and as its bare label otherwise |
| MarkingsInfo.FillMissingLabels | src/components/information-tabs/markings-info/markings-info.tsx:11-15 | `fillMissingLabels` returns its rows unchanged |
| MarkingsInfo.Merge | src/components/information-tabs/markings-info/markings-info.tsx:74-95 | the table is produced exactly when every combined row has defined ids; otherwise `ids.some` throws |
| MarkingsInfo.MergeShape | src/components/information-tabs/markings-info/markings-info.tsx:83-92 | one row per own marking and per opposite marking with a new label, sorted by label |
| MarkingsInfo.MergeElements | src/components/information-tabs/markings-info/markings-info.tsx:83-87 | the rows are exactly the own markings and the opposite markings with new labels, each once |
| MarkingsInfo.OwnMarkingsStayWhole | src/components/information-tabs/markings-info/markings-info.tsx:88-92 | a row is whole exactly when it shares an id with this canvas, so an own marking with an id is always whole |
| MarkingsInfo.RepairedCalibration | src/components/information-tabs/markings-info/markings-info.tsx:28-34 | a missing calibration is written back as 1 px per px; a present one is kept |
| SaveMarkings.ImageData | src/lib/utils/viewport/saveMarkingsDataWithDialog.ts:63-83 | no picture gives null; a picture without texture throws "Could not find texture for image"; otherwise the record has name, path, sha256 (the sprite's hash) and size |
| SaveMarkings.StrsToJson | src/lib/utils/viewport/saveMarkingsDataWithDialog.ts:121 | each id is exported as a string, in order |
| SaveMarkings.ExportMarking | src/lib/utils/viewport/saveMarkingsDataWithDialog.ts:120-141 | each marking exports its class name, origin and type id, its ids exactly when defined, `angleRad` exactly for rays, `endpoint` exactly for segments, measurements and boxes, `points` exactly for polygons and rectangles, and never its label |
| SaveMarkings.KindFields | src/lib/utils/viewport/saveMarkingsDataWithDialog.ts:126-140 | the kind's own field: `angleRad` exactly for rays, `endpoint` exactly for segments, measurements and boxes, `points` exactly for polygons and rectangles, and no other key |
| SaveMarkings.ExportMarkings | src/lib/utils/viewport/saveMarkingsDataWithDialog.ts:120 | the i-th exported marking is the i-th marking's export |
| SaveMarkings.UsedTypes | src/lib/utils/viewport/saveMarkingsDataWithDialog.ts:105-116 | exactly the stored types in use on the left or the right canvas, in store order |
| SaveMarkings.TypeRefs | src/lib/utils/viewport/saveMarkingsDataWithDialog.ts:117 | each used type is exported as its id and name |
| SaveMarkings.GetData | src/lib/utils/viewport/saveMarkingsDataWithDialog.ts:85-146 | without a canvas id it throws "Canvas ID not found"; a missing texture on either picture throws; otherwise the record has exactly the keys `metadata` and `data`, and `data.markings` exports this canvas's markings |
| SaveMarkings.ExportedTypesAreUsed | src/lib/utils/viewport/saveMarkingsDataWithDialog.ts:105-117 | every exported type is a stored type that some marking on either canvas uses |
| SaveMarkings.ValidateViewport | src/lib/utils/viewport/saveMarkingsDataWithDialog.ts:148-156 | a missing viewport and one with more than one child are rejected with their messages; otherwise the viewport passes |
| SaveMarkings.SaveToPath | src/lib/utils/viewport/saveMarkingsDataWithDialog.ts:158-202 | more than one image shows the error dialog only; when the data cannot be built its error escapes and nothing is written; otherwise the file is written, and then the canvas is marked saved with both current hashes if the write resolved, while a rejected write escapes without marking it saved |
| SaveMarkings.OppositePictureForDialog | src/lib/utils/viewport/saveMarkingsDataWithDialog.ts:221-235 | an opposite viewport that fails validation gives no compared picture |
| SaveMarkings.DefaultMarkingsFileName | src/lib/utils/viewport/saveMarkingsDataWithDialog.ts:249-253 | `marking.json` without a named picture; otherwise the picture's base name with `.json`, and a rejection exactly when awaiting `basename` rejects |
| SaveMarkings.SaveWithDialog | src/lib/utils/viewport/saveMarkingsDataWithDialog.ts:204-274 | a failed validation shows only its error; a rejected `basename` ends in the error toast before any dialog; otherwise the save dialog opens first, a cancel ends there and a rejected dialog ends in the error toast; a file is written exactly when a path was chosen and the data can be built; the canvas is marked saved, right after the write, exactly when that write resolved, and the success toast shows exactly then; with a valid viewport the error toast shows exactly when neither success nor a cancel ends the flow |
| SaveMarkings.AfterDialog | src/lib/utils/viewport/saveMarkingsDataWithDialog.ts:255-273 | once a path is chosen the dialog stays first; a file with the built data is written exactly when the data could be built; the canvas is marked saved with both canvases' hashes, right after the write, and the success toast shows, exactly when the write also resolved; the error toast shows in every other case |
| SourceafisConvert.Ray | src/lib/utils/viewport/convertSourceafisToRayMarkings.ts:32 | a ray built from a minutia has class `ray` |
| SourceafisConvert.ConvertedTypeId | src/lib/utils/viewport/convertSourceafisToRayMarkings.ts:27-30 | the ridge-ending id exactly for kind `ending`, the bifurcation id for every other kind |
| SourceafisConvert.ConvertFrom | src/lib/utils/viewport/convertSourceafisToRayMarkings.ts:25-33 | one ray per minutia, in order, each at the minutia's position and direction, with the label of the matching call to the label source |
| SourceafisConvert.Convert | src/lib/utils/viewport/convertSourceafisToRayMarkings.ts:19-34 | no minutiae gives no markings; otherwise as many rays as minutiae, the i-th at the i-th minutia's position and direction with the i-th label, typed ridge ending exactly when its kind is `ending` |
| SourceafisConvert.ConvertConcat | src/lib/utils/viewport/convertSourceafisToRayMarkings.ts:25-33 | converting a concatenation converts each part, the second with the label source advanced by the first part's length |
| SourceafisTypes.LowerAllPointwise | src/lib/utils/viewport/autoMarkWithSourceafis.ts:19 | lowering keeps the length and lowers each character in place |
| SourceafisTypes.KeepAlnumMembers | src/lib/utils/viewport/autoMarkWithSourceafis.ts:20 | the filter never lengthens the name and keeps exactly the characters in [a-z0-9] |
| SourceafisTypes.NormalizedIsAlnum | src/lib/utils/viewport/autoMarkWithSourceafis.ts:17-21 | an undefined name normalises to the empty string, and a normalised name holds only [a-z0-9] |
| SourceafisTypes.NormalizeIdempotent | src/lib/utils/viewport/autoMarkWithSourceafis.ts:17-21 | normalising a normalised name changes nothing |
| SourceafisTypes.FindByName | src/lib/utils/viewport/autoMarkWithSourceafis.ts:32-36 | a type is found exactly when some type's normalised name or display name equals the sought name, and the found type is one of them |
| SourceafisTypes.ResolveTypeIdSpec | src/lib/utils/viewport/autoMarkWithSourceafis.ts:23-39 | a type with the sought id wins; with none, the id comes from a type matching the sought name; with neither, nothing resolves |
| SourceafisTypes.EndingTestAsWritten | __tests__/unit/autoMarkWithSourceafis.mapping.test.ts:44-59 | with the two canonical types, kind `ending` resolves to the bifurcation id, not the ridge-ending id the test expects |
| SourceafisTypes.BifurcationTestAsWritten | __tests__/unit/autoMarkWithSourceafis.mapping.test.ts:61-76 | kind `bifurcation` resolves to the ridge-ending id, not the bifurcation id the test expects |
| SourceafisTool.TruncateLogText | src/lib/external-tools/sourceafis/createSourceAfisExternalTool.ts:49-54 | text of at most 500 characters is kept; longer text becomes its first 500 characters followed by the truncation marker |
| SourceafisTool.TruncateProperties | src/lib/external-tools/sourceafis/createSourceAfisExternalTool.ts:49-54 | the result is bounded by 500 plus the marker's length, starts with the text's first 500 characters, and truncating twice equals truncating once |
| SourceafisTool.ResolveStrategy | src/lib/external-tools/sourceafis/createSourceAfisExternalTool.ts:284-292 | the Windows strategy exactly on `windows`; otherwise the not-implemented strategy keeping the platform name |
| SourceafisTool.BuildExecutionPlan | src/lib/external-tools/sourceafis/createSourceAfisExternalTool.ts:154-192 | a plan exactly for the Windows strategy, running the sidecar with six arguments; the other strategy fails with a not-implemented error |
| SourceafisTool.PlanCarriesRequest | src/lib/external-tools/sourceafis/createSourceAfisExternalTool.ts:160-170 | the Windows plan's flags map `--image`, `--out-template` and `--out-json` to exactly the three request paths |
| SourceafisTool.OnlyWindowsPlans | src/lib/external-tools/sourceafis/createSourceAfisExternalTool.ts:183-191 | planning succeeds exactly on Windows; elsewhere it fails with the message naming the platform |
| SourceafisTool.TimeoutOf | src/lib/external-tools/sourceafis/createSourceAfisExternalTool.ts:85 | the given timeout, or 30000 ms when none is given |
| SourceafisTool.Execute | src/lib/external-tools/sourceafis/createSourceAfisExternalTool.ts:81-151 | a timeout fails with the timeout error naming the command and timeout; a finished process succeeds exactly on exit code 0, returning its output, and otherwise fails with a process error carrying the code and stderr |
| SourceafisTool.ReadJson | src/lib/external-tools/sourceafis/createSourceAfisExternalTool.ts:194-238 | a missing file, a parse failure (keeping its cause), a non-object root and a `minutiae` field that is not an array each fail; otherwise the parsed value is returned unchanged |
| SourceafisTool.NullMinutiaeRejected | src/lib/external-tools/sourceafis/createSourceAfisExternalTool.ts:227-234 | a `null` minutiae field is rejected as not an array |
| SourceafisTool.Run | src/lib/external-tools/sourceafis/createSourceAfisExternalTool.ts:259-282 | planning, execution, the template check and the JSON read run in that order, the first error ending the run; success returns the process result and the JSON |
| SourceafisTool.MissingTemplateIgnoresJson | src/lib/external-tools/sourceafis/createSourceAfisExternalTool.ts:266-271 | after exit code 0 a missing template fails the run with its message, whatever the JSON file holds |
| SourceafisTool.NonWindowsFailsFirst | src/lib/external-tools/sourceafis/createSourceAfisExternalTool.ts:183-192 | off Windows the run fails with a not-implemented error whatever the process and the files would give |
| AutoMark.AddedRays | src/lib/utils/viewport/autoMarkWithSourceafis.ts:180-205 | the loop adds at most one ray per minutia |
| AutoMark.RayFor | src/lib/utils/viewport/autoMarkWithSourceafis.ts:181-204 | one minutia contributes at most one ray |
| AutoMark.AddedRaysAppend | src/lib/utils/viewport/autoMarkWithSourceafis.ts:180-205 | one more minutia appends exactly that minutia's ray, labelled after all earlier minutiae |
| AutoMark.AddedRaysShape | src/lib/utils/viewport/autoMarkWithSourceafis.ts:181-203 | every added ray has a non-empty type id, the i-th label after the first, and the position of the i-th minutia, with its direction turned back by a quarter turn |
| AutoMark.LastHash | src/lib/utils/viewport/autoMarkWithSourceafis.ts:204 | with nothing added the store keeps its hash |
| AutoMark.LastHashAppend | src/lib/utils/viewport/autoMarkWithSourceafis.ts:204 | adding one more marking publishes that marking's hash; adding none keeps the last one |
| AutoMark.AddMinutiae | src/lib/utils/viewport/autoMarkWithSourceafis.ts:175-205 | the store's markings are the old ones followed by the added rays, the label counter advances once per minutia, and the hash is that of the last ray added |
| AutoMark.ImagePath | src/lib/utils/viewport/autoMarkWithSourceafis.ts:41-59 | no picture and a picture without a file name each fail with their message; otherwise a picture with a path gives the path, a slash and the name, and one without gives the bare name |
| AutoMark.MinutiaeOf | src/lib/utils/viewport/autoMarkWithSourceafis.ts:176 | a readable minutiae list has one minutia per item |
| AutoMark.AutoMarkWithSourceafis | src/lib/utils/viewport/autoMarkWithSourceafis.ts:61-241 | markings are added exactly when the image path resolves, the tool exits with 0 and writes the template and the JSON, the JSON parses to an object, the viewport names a canvas and its minutiae can be read; then the added rays are those of the loop; every other outcome leaves the store unchanged |
| AutoMark.ConvertersDisagree | src/lib/utils/viewport/autoMarkWithSourceafis.ts:180-204 | for kind `ending` with the bifurcation type present, the automatic path gives the bifurcation id and an angle a quarter turn below the converter's, which gives the ridge-ending id |
| ExternalToolErrors.NameIdentifiesClass | src/lib/external-tools/core/errors.ts:3-58 | two errors have the same name exactly when they are of the same class |
| ExternalToolErrors.CauseIsKept | src/lib/external-tools/core/errors.ts:6-10 | the base, timeout and process errors keep the cause they were given; the not-implemented error has none |
| ExternalToolErrors.FirstCharOfCode | src/lib/external-tools/core/errors.ts:43 | the text of a numeric exit code never starts like `null` |
| ExternalToolErrors.ExitCodeTextInjective | src/lib/external-tools/core/errors.ts:43 | distinct exit codes, null included, give distinct texts |
| ExternalToolErrors.TimeoutMessageNamesBoth | src/lib/external-tools/core/errors.ts:18-22 | the timeout message holds the command right after its quoted prefix, and for one command it determines the timeout |
| ExternalToolErrors.ProcessMessageNamesExitCode | src/lib/external-tools/core/errors.ts:36-45 | the process message holds the command right after its quoted prefix, and for one command it determines the exit code |
| Peaks.RunEnd | src/components/edit-window/dpi/measurementUtils.ts:52-64 | the first index at or after the start whose value is not below the threshold; every value before it is below |
| Peaks.ArgMin | src/components/edit-window/dpi/measurementUtils.ts:57-60 | the tracked minimum of a run lies inside the run |
| Peaks.ArgMinIsFirstMin | src/components/edit-window/dpi/measurementUtils.ts:53-60 | the tracked minimum is the run's smallest value, and no earlier position in the run holds a value as small (ties keep the first) |
| Peaks.RunEndAt | src/components/edit-window/dpi/measurementUtils.ts:52-64 | a run that stays below the threshold up to a value at or above it, or to the end, ends exactly there |
| Peaks.SpacedAppend | src/components/edit-window/dpi/measurementUtils.ts:44-46 | one more candidate is kept exactly when nothing was kept yet or it lies at least the minimum distance after the last kept one |
| Peaks.FindPeaks | src/components/edit-window/dpi/measurementUtils.ts:29-72 | the one-pass detector returns exactly the reference peaks: the spaced first minima of the maximal below-threshold runs, none for fewer than three values |
| Peaks.CandidatesShape | src/components/edit-window/dpi/measurementUtils.ts:49-69 | the candidates ascend, lie below the threshold, are each the first minimum of a maximal run, and consecutive ones are separated by a value at or above the threshold |
| Peaks.CandidatesComplete | src/components/edit-window/dpi/measurementUtils.ts:49-69 | every maximal run after a run boundary contributes its first minimum |
| Peaks.SpacedShape | src/components/edit-window/dpi/measurementUtils.ts:44-46 | the kept candidates are candidates, ascend, are at least the minimum distance apart, and the first candidate is always kept |
| Peaks.SeparatedCandidates | src/components/edit-window/dpi/measurementUtils.ts:49-65 | any two candidates, not only neighbours, are separated by a value at or above the threshold |
| Peaks.PeaksProperties | src/components/edit-window/dpi/measurementUtils.ts:29-72 | no peaks for fewer than three values; otherwise ascending indices at least the minimum distance apart, each below the threshold and the first minimum of a maximal run, and no two from the same run |
| Peaks.EveryRunIsACandidate | src/components/edit-window/dpi/measurementUtils.ts:49-69 | the first minimum of every maximal run is a candidate, so runs are lost only to the spacing rule |
| Peaks.SampleLine | src/components/edit-window/dpi/measurementUtils.ts:6-26 | one sample per step from 0 to the longer axis's length, the i-th being the mean of the red, green and blue bytes at the rounded i-th point, missing bytes counting as 0 |
| Peaks.SampleEnds | src/components/edit-window/dpi/measurementUtils.ts:12-15 | the first sample reads the pixel at the rounded start, and with a whole step count the last reads the pixel at the rounded end |
| Peaks.SampleRange | src/components/edit-window/dpi/measurementUtils.ts:18-22 | with bytes in 0..255 every sample lies in 0..255 |
| DpiCalibration.Interpolated | src/components/edit-window/dpi/imageDpiCalibration.ts:116-119 | one point per peak index |
| DpiCalibration.PeakPointsOnSegment | src/components/edit-window/dpi/imageDpiCalibration.ts:116-119 | every peak point lies on the segment between the two clicks, at the fraction index over the sample count minus one |
| DpiCalibration.PixelsPerMm | src/components/edit-window/dpi/imageDpiCalibration.ts:160-164 | the mean of the consecutive peak gaps equals the span from the first to the last peak over the number of gaps |
| DpiCalibration.AscendingPeaksScale | src/components/edit-window/dpi/imageDpiCalibration.ts:164-166 | for two or more ascending peaks the pixels per millimetre are positive, the scale factor is finite, multiplying it back by the measured DPI gives the target DPI, and a positive target gives a positive factor |
| DpiCalibration.Samples | src/components/edit-window/dpi/imageDpiCalibration.ts:113 | one sample per step of the line, plus one |
| DpiCalibration.PeaksAscending | src/components/edit-window/dpi/imageDpiCalibration.ts:114 | the detected peaks ascend, index the samples, and occur only when there are at least three samples |
| DpiCalibration.ImageDpiCalibration.constructor | src/components/edit-window/dpi/imageDpiCalibration.ts:14-18 | no first point, no line, not drawing, no pointer position, target DPI 1000 and no rescaling yet |
| DpiCalibration.ImageDpiCalibration.SetTargetDpi | src/components/edit-window/dpi/imageDpiCalibration.ts:20-22 | the target DPI becomes the given value |
| DpiCalibration.ImageDpiCalibration.Clear | src/components/edit-window/dpi/imageDpiCalibration.ts:95-99 | the first point and the line are forgotten |
| DpiCalibration.ImageDpiCalibration.MouseMove | src/components/edit-window/dpi/imageDpiCalibration.ts:67-80 | the pointer position is recorded only while a first point is set |
| DpiCalibration.ImageDpiCalibration.ProcessPeaks | src/components/edit-window/dpi/imageDpiCalibration.ts:158-168 | fewer than two peaks rescale nothing; otherwise one rescale is requested, by the target DPI over the mean gap times 25.4 |
| DpiCalibration.ImageDpiCalibration.Click | src/components/edit-window/dpi/imageDpiCalibration.ts:101-132 | the first click stores the point and starts drawing; the second records the line with its interpolated peaks, ends drawing, forgets the first point and the pointer, and with two or more peaks requests exactly one rescale, by a finite factor |
| EditWindowUrl.EncodePath | src-tauri/src/main.rs:65-79 | the character loop produces exactly the escaped path: backslashes become slashes, the seven reserved characters their percent escapes, and every other character is kept |
| EditWindowUrl.EditWindowUrl | src-tauri/src/main.rs:64-81 | the bare edit URL without a path; with one, the bare URL, `&imagePath=` and the escaped path |
| EditWindowUrl.EscapeShape | src-tauri/src/main.rs:68-78 | an escaped character holds no unsafe character, a '%' only as the start of one of the seven escapes, and is the character itself exactly when it is neither unsafe nor '%' |
| EditWindowUrl.EncodedIsSafe | src-tauri/src/main.rs:66-80 | the escaped path holds none of the characters that end or split a query value, and every '%' in it starts one of the seven escapes |
| EditWindowUrl.SafeConcat | src-tauri/src/main.rs:66-80 | joining two escaped pieces keeps both guarantees: no escape straddles the seam |
| EditWindowUrl.Slashed | src-tauri/src/main.rs:69 | turning backslashes into slashes keeps the length |
| EditWindowUrl.FormDecodeInvertsEncoded | src-tauri/src/main.rs:64-81 | reading the query value back once gives the path with its backslashes turned into slashes |
| EditWindowUrl.FormDecodeEscape | src-tauri/src/main.rs:66-80 | form decoding reads each escaped character back, a backslash as a slash |
| EditWindowUrl.Backslashed | src/components/edit-window/edit-window.tsx:239 | turning slashes into backslashes keeps the length |
| EditWindowUrl.ReadImagePath | src/components/edit-window/edit-window.tsx:233-242 | an absent or empty value loads nothing |
| EditWindowUrl.PathWithoutPercentArrives | src/components/edit-window/edit-window.tsx:233-242 | a non-empty path without '%' reaches the edit window with each slash, original or converted, read back as a backslash |
| EditWindowUrl.DoubleDecodeAltersPercent | src/components/edit-window/edit-window.tsx:238 | the value is decoded a second time, so the path `a%41` is loaded as `aA` |
| EditWindowUrl.DoubleDecodeThrows | src/components/edit-window/edit-window.tsx:238 | the path `a%` makes the second decoding throw |
| EditWindowUrl.Windows.OpenSettingsWindow | src-tauri/src/main.rs:29-52 | an open settings window is only focused, a failed focus being returned; otherwise one settings window is built at the settings URL, a failed build being returned with nothing built |
| EditWindowUrl.Windows.OpenEditWindow | src-tauri/src/main.rs:54-99 | an open edit window is focused and, given a path, sent it raw as `image-path-changed`, each failure returned and nothing built; otherwise one edit window is built at the URL carrying the escaped path, a failed build being returned with nothing built |
| EditWindow.ExtWithDot | src/components/edit-window/edit-window.tsx:143-147 | the extension always starts with a dot: `.png` for none, otherwise the extension itself or the extension after an added dot |
| EditWindow.ExtWithDotIdempotent | src/components/edit-window/edit-window.tsx:143-147 | an extension that already starts with a dot is kept, so applying the rule twice equals applying it once |
| EditWindow.LastIndexOf | src/components/edit-window/edit-window.tsx:149 | -1 or a position holding the character, with no occurrence after it |
| EditWindow.NameWithoutExtSpec | src/components/edit-window/edit-window.tsx:149-153 | the base name is a prefix of the file name, shorter exactly when a dot follows the first character, and then the rest is the last dot and a dot-free extension |
| EditWindow.TimestampSpec | src/components/edit-window/edit-window.tsx:155-158 | the timestamp drops the last five characters, holds no ':' or '.', changes only those characters, and for a 24-character ISO instant is its first 19 characters with the separators dashed |
| EditWindow.EditedFilenameKeepsExtension | src/components/edit-window/edit-window.tsx:285 | for an extension with one dot, the edited name's own base name is the original base name, `_edited_` and the timestamp, so the extension is kept |
| EditWindow.FindUniqueFilePath | src/components/edit-window/edit-window.tsx:38-79 | the initial path when its check says free or throws; otherwise the first numbered candidate among 1..100 that is free (a failed check counting as free), or the 100th when all are taken |
| EditWindow.ZoomAfterWheel | src/components/edit-window/edit-window.tsx:185-186 | the new zoom always lies in [0.1, 10] |
| EditWindow.ZoomDirection | src/components/edit-window/edit-window.tsx:185-186 | from an in-range zoom, scrolling down never zooms in and scrolling up never zooms out; away from the bounds the step is exactly 0.9 or 1.1 |
| EditWindow.ZoomKeepsAnchor | src/components/edit-window/edit-window.tsx:195-199 | after zooming, the image point under the pointer is the one that was there before, and an unchanged zoom keeps the pan |
| EditWindow.DragFollowsPointer | src/components/edit-window/edit-window.tsx:205-217 | while dragging, the pan moves by exactly the pointer's travel since the press, and is unchanged at the press position |
| EditWindow.EditView.constructor | src/components/edit-window/edit-window.tsx:27-33 | zoom 1, pan at the origin, not dragging |
| EditWindow.EditView.Wheel | src/components/edit-window/edit-window.tsx:181-203 | without an image nothing changes; otherwise the zoom steps and is clamped and the pan keeps the pointer's image point, the zoom staying in range |
| EditWindow.EditView.MouseDown | src/components/edit-window/edit-window.tsx:205-209 | only the primary button starts a drag, remembering the pointer less the pan |
| EditWindow.EditView.MouseMove | src/components/edit-window/edit-window.tsx:211-217 | the pan follows the pointer only while dragging |
| EditWindow.EditView.MouseUp | src/components/edit-window/edit-window.tsx:219-221 | the drag ends |
| EditWindow.EditView.ResetZoom | src/components/edit-window/edit-window.tsx:223-231 | zoom 1 and pan at the origin |
| FontRange.Range | src/components/pixi/canvas/canvas.tsx:15-23 | a negative length is refused; otherwise a new array of `max - min + 1` elements whose i-th is `min + i` |
| FontRange.LoadedFontSizes | src/components/pixi/canvas/canvas.tsx:37 | the loaded sizes are exactly 6 to 32 in order and then 64, so every size a label's font can be named with is among them |
| FontRange.Canvas.constructor | src/components/pixi/canvas/canvas.tsx:31 | the fonts start unloaded and nothing is drawn |
| FontRange.Canvas.FontsLoaded | src/components/pixi/canvas/canvas.tsx:42-44 | once the fonts are in, the stage is drawn |


## Left out

- Native and browser I/O is not modelled. This covers the Tauri file system, dialogs, shell, OS and window plugins, toasts, `getVersion`, the event bus and canvas pixel reads. What a call returns is a parameter, and each save or load flow returns the ordered effects it performs. In the save and load flows the save and open dialogs, `basename` and `writeTextFile` may also reject, and the flows model what follows. `getVersion` and the confirmation dialog are taken to resolve.
- `JSON.stringify` and `JSON.parse` text encoding is not modelled. JSON is an abstract value, and keys that `stringify` drops are absent keys.
- `Date.now`, `new Date().toISOString()`, `crypto.randomUUID`, the random path ids and the store hashes are parameters.
- `Math.sqrt`, `Math.cos` and `Math.sin` results are parameters, or are replaced by squared distances. Only the exact cases are proved: rotation by 0, the pivot, a full turn, and radius preserved given `cos² + sin² = 1`.
- Floating point is not modelled. Numbers are exact reals. `toFixed(2)` formatting of distances and readouts is not modelled beyond the decision it depends on.
- The `Promise.race` timeout in the process adapter is not modelled as concurrency. The race's outcome (finished or timed out) is an input, and the process is not killed, as in the source.
- LoadTracing.LoadPlan: a well-shaped file whose `data.paths` items all have an array `points` but lack or mistype another field (`{"points": []}`, say) is loaded by the source as it is, followed by the success toast. The model emits the same success toast after `Unrepresentable`, and it keeps the store's paths, which the typed store cannot hold otherwise.
- LoadTracing.LoadTracingData: for the `Unrepresentable` outcome above the store is left unchanged, where the source installs the unchecked items with an empty history.
- SourceafisTool.Execute: a rejected `command.execute()` (the sidecar fails to spawn) is not one of the outcomes. The source rethrows that error unchanged, and it is not one of the external-tool errors.
- The Markings store's action layer (`addOne`, `labelGenerator`, `updateTemporaryMarking`), the rotation, auto-rotate and cached-viewport stores, `getAdjustedPosition`, `getNormalizedMousePosition` and the other marking handlers are not part of this model. `MarkingsStore.CanvasStore` and `CachedViewport.Store` give them the contracts their callers rely on: append, a monotone label counter, replace and merge. Whether those actions write through the state's `set` member, which `reset` disables, cannot be seen, so they keep working after `MarkingsStore.CanvasStore.Reset`.
- Pixi drawing calls (line styles, circles, bitmap text, filters) are not modelled. `MarkingRender.DrawMarking` yields a description of what is drawn.
- The `instanceof` chain after the `switch` in `drawMarking` (src/components/pixi/overlays/markings/marking.utils.tsx:602-679) is unreachable and not modelled. `drawMarking`'s early return for a missing type is `MarkingRender.DrawMarking` taking a resolved type.
- The unbound viewport ratios in src/components/pixi/overlays/markings/markings.tsx:53-59 are not modelled. `MarkingsLayer.DrawMarkings` takes the view as a parameter.
- The measurement plugin's mode check compares against `CURSOR_MODES.MEASUREMENT`, which the cursor-mode enumeration lacks. Whether measurement mode is active is a boolean input to every handler.
- MeasurementPlugin.Plugin.Destroy: only the move, up and interrupt listeners are unregistered, so presses after `destroy` still reach `MouseDown`, as in the source.
- DpiCalibration.ImageDpiCalibration.Clear: the drawing flag and the pointer position are left as they are, as in the source. The canvas drawing, `scaleImage`'s rescaled image and the device-pixel-ratio setup are left out; each rescale request is recorded with its factor.
- The marking import path (`loadMarkingsData`) is not part of this model, so there is no markings export-then-import round trip.
- SourceafisTypes.NormalizedIsAlnum: `toLowerCase` is modelled on ASCII letters only; other case mappings in Unicode are not modelled.
- EditWindowUrl.FormDecodeInvertsEncoded: percent escapes are read as single characters. The UTF-8 decoding of multi-byte escapes is not modelled, so non-ASCII characters are not modelled beyond being copied.
- The third mapping test (unknown kind falls back to ridge ending by name) agrees with the code and has no lemma of its own. `SourceafisTypes.ResolveTypeIdSpec` covers it.
- AutoMark.AutoMarkWithSourceafis: a `minutiae` array whose items are not objects with number fields `x`, `y`, `direction` and a string `type` is the outcome `UnreadableMinutiae`, with nothing added. The source would iterate such items with undefined fields. A `minutiae` value that is not an array (a string, say), which the source's loop would iterate, gives `None` from `AutoMark.MinutiaeOf` and adds nothing. The console logging and the checks after the loop, which only log, are not modelled.
- MarkingOverlay.Ratios: requires non-zero world sizes. With a zero world size the source divides by zero and gets `Infinity` or `NaN`, which is not modelled.
- MarkingsInfo.Merge: the stores' markings are always arrays here. The source's guard for a non-array value (an empty table) cannot arise in the model. An undefined `ids`, on which the source's `some` throws, is the `None` result.
- FontRange.Range: integer bounds only. A fractional length, which `new Array` also refuses, is not modelled.
- UI with no decision logic, colour conversion in the theme settings, build and test tooling, and the locale data are not part of this model.

## Findings

| source | as written | input that shows it | evidently intended | confidence | as-written member | corrected member |
|---|---|---|---|---|---|---|
| src/lib/stores/Markings/Markings.store.ts:31-40 | `reset` is `set(INITIAL_STATE)`, and `INITIAL_STATE` carries `set: () => {}`, so the merge replaces the store's setter by a no-op | `reset()`, then `set(draft => { draft.markings = [m] })`: the markings stay `[]` | `reset` restores the data and keeps the store's own `set` | medium, not executed | MarkingsStore.ResetThenSet | MarkingsStore.ResetKeepingSetterThenSet |
