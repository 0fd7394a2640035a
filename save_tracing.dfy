/** Saving a canvas's tracing paths: the export record, the default file
    name, and the save flow as the sequence of effects it performs. The
    file dialog's answer, the app version, `basename` and the canvas
    stores are inputs. */
module SaveTracing {
  import opened Wrappers
  import opened Geometry
  import opened Json
  import opened TracingStore

  const SoftwareName: string := "biometrics-studio"

  function PointToJson(p: Point): Json {
    JObj(map["x" := JNum(p.x), "y" := JNum(p.y)])
  }

  function PointsToJson(pts: seq<Point>): (r: seq<Json>)
    ensures |r| == |pts|
  {
    if pts == [] then [] else [PointToJson(pts[0])] + PointsToJson(pts[1..])
  }

  function PathToJson(p: TracingPath): Json {
    JObj(map["id" := JStr(p.id), "points" := JArr(PointsToJson(p.points)),
             "color" := JStr(p.color), "opacity" := JNum(p.opacity),
             "brushSize" := JNum(p.brushSize)])
  }

  function PathsToJson(ps: Paths): (r: seq<Json>)
    ensures |r| == |ps|
  {
    if ps == [] then [] else [PathToJson(ps[0])] + PathsToJson(ps[1..])
  }

  /** `TracingExportObject`: software metadata and the current paths. */
  function ExportRecord(version: string, ps: Paths): (r: Json)
    ensures r.JObj? && r.fields.Keys == {"metadata", "data"}
    ensures Get(r, "data") == Some(JObj(map["paths" := JArr(PathsToJson(ps))]))
  {
    JObj(map[
      "metadata" := JObj(map["software" := JObj(map["name" := JStr(SoftwareName), "version" := JStr(version)])]),
      "data" := JObj(map["paths" := JArr(PathsToJson(ps))])])
  }

  /** `getTracingData`: fails without a canvas id, otherwise exports the
      paths of that canvas's store. */
  function TracingData(canvasId: Option<string>, version: string, pathsOf: string -> Paths): (r: Result<Json, string>)
    ensures canvasId.None? ==> r == Err("Canvas ID not found")
    ensures canvasId.Some? ==> r == Ok(ExportRecord(version, pathsOf(canvasId.value)))
  {
    match canvasId
    case None => Err("Canvas ID not found")
    case Some(id) => Ok(ExportRecord(version, pathsOf(id)))
  }

  /** The first child of the viewport: `NoPicture` when `getChildAt(0)`
      throws, otherwise its possibly null name. */
  datatype Picture = NoPicture | Picture(name: Option<string>)

  /** The dialog's default path. `basename` is awaited only for a named
      picture, and its rejection rejects the whole name. */
  function DefaultFileName(picture: Picture, basename: string -> Promised<string>): (r: Promised<string>)
    ensures (picture.NoPicture? || picture.name.None?) ==> r == Ok("tracing.json")
    ensures picture.Picture? && picture.name.Some? && basename(picture.name.value).Ok? ==>
      r == Ok(basename(picture.name.value).value + ".paint.json")
    ensures r.Err? <==> picture.Picture? && picture.name.Some? && basename(picture.name.value).Err?
  {
    match picture
    case NoPicture => Ok("tracing.json")
    case Picture(None) => Ok("tracing.json")
    case Picture(Some(n)) =>
      match basename(n)
      case Err(e) => Err(e)
      case Ok(b) => Ok(b + ".paint.json")
  }

  datatype Effect =
    | ErrorDialog(message: string)
    | SaveDialog(defaultPath: string)
    | WriteFile(path: string, content: Json)
    | SuccessToast
    | ErrorToast

  /** `saveTracingDataWithDialog`. `viewportLoaded` is `viewport !== null`;
      `chosen` is how the save dialog settled (a null path when cancelled)
      and `writeOk` whether `writeTextFile` resolved. Everything after the
      viewport check runs inside one `try`, so any rejection or throw ends
      in the error toast. */
  function SaveFlow(viewportLoaded: bool, canvasId: Option<string>, picture: Picture,
                    basename: string -> Promised<string>, chosen: Promised<Option<string>>,
                    writeOk: bool, version: string, pathsOf: string -> Paths): (effects: seq<Effect>)
    ensures !viewportLoaded ==> effects == [ErrorDialog("Viewport is not loaded")]
    ensures viewportLoaded && DefaultFileName(picture, basename).Err? ==> effects == [ErrorToast]
    ensures viewportLoaded && DefaultFileName(picture, basename).Ok? ==>
      |effects| >= 1 && effects[0] == SaveDialog(DefaultFileName(picture, basename).value)
    ensures viewportLoaded && DefaultFileName(picture, basename).Ok? && chosen.Err? ==> |effects| == 2 && effects[1] == ErrorToast
    ensures (exists i :: 0 <= i < |effects| && effects[i].WriteFile?) <==>
      viewportLoaded && DefaultFileName(picture, basename).Ok? && chosen.Ok? && chosen.value.Some? && canvasId.Some?
    ensures viewportLoaded && DefaultFileName(picture, basename).Ok? && chosen.Ok? && chosen.value.Some? && canvasId.Some? ==>
      |effects| == 3 && effects[1] == WriteFile(chosen.value.value, ExportRecord(version, pathsOf(canvasId.value)))
    ensures SuccessToast in effects <==>
      (exists i :: 0 <= i < |effects| && effects[i].WriteFile?) && writeOk
    ensures forall i :: 0 <= i < |effects| && effects[i] == SuccessToast ==> i == |effects| - 1 && 0 < i && effects[i - 1].WriteFile?
    ensures viewportLoaded ==>
      (ErrorToast in effects <==> SuccessToast !in effects && !(DefaultFileName(picture, basename).Ok? && chosen == Ok(None)))
  {
    if !viewportLoaded then [ErrorDialog("Viewport is not loaded")]
    else
      match DefaultFileName(picture, basename)
      case Err(_) => [ErrorToast]
      case Ok(name) =>
        var dialog := SaveDialog(name);
        match chosen
        case Err(_) => [dialog, ErrorToast]
        case Ok(None) => [dialog]
        case Ok(Some(path)) =>
          match TracingData(canvasId, version, pathsOf)
          case Err(_) => [dialog, ErrorToast]
          case Ok(content) =>
            var written := [dialog, WriteFile(path, content), if writeOk then SuccessToast else ErrorToast];
            assert written[1].WriteFile?;
            written
  }
}
