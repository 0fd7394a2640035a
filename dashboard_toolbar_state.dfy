/** The dashboard toolbar's persisted settings record and its initial value. */
module DashboardToolbarState {
  import Markings

  /** `CURSOR_MODES`: a closed set of three modes. */
  datatype CursorMode = Selection | MarkingMode | AutoRotate

  datatype TracingMode = Free | Line

  datatype ViewportSettings = ViewportSettings(locked: bool, scaleSync: bool)

  datatype TracingSettings = TracingSettings(
    isEnabled: bool, color: string, opacity: real, brushSize: real, mode: TracingMode)

  datatype Settings = Settings(
    cursorMode: CursorMode,
    markingClass: Markings.MarkingClass,
    viewport: ViewportSettings,
    tracing: TracingSettings)

  const InitialTracing: TracingSettings := TracingSettings(false, "#ff0000", 1.0, 2.0, Free)

  const Initial: Settings :=
    Settings(Selection, Markings.PointClass, ViewportSettings(false, false), InitialTracing)

  /** The stated defaults: selection cursor, point markings, an unlocked
      viewport without scale sync, and disabled red free-hand tracing. */
  lemma InitialDefaults()
    ensures Initial.cursorMode == Selection
    ensures Initial.markingClass.Name() == "point"
    ensures !Initial.viewport.locked && !Initial.viewport.scaleSync
    ensures !Initial.tracing.isEnabled && Initial.tracing.color == "#ff0000"
    ensures Initial.tracing.opacity == 1.0 && Initial.tracing.brushSize == 2.0
    ensures Initial.tracing.mode == Free
  {
  }
}
