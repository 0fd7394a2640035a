/** Saving a canvas's markings: the export record, the image records, the
    viewport check, and the two save flows (to a given path, and through
    the save dialog) as the effects they perform in order. The app
    version, the working mode, the stores' contents, `basename` and the
    dialog's answer are inputs. Values that `JSON.stringify` drops
    (undefined `ids`, an unset working mode) are absent keys here. */
module SaveMarkings {
  import opened Wrappers
  import opened Geometry
  import opened Markings
  import opened Json
  import MarkingTypes
  import SaveTracing

  const SoftwareName: string := "biometrics-studio"

  /** An image sprite as the export reads it. */
  datatype Sprite = Sprite(name: Option<string>, path: Option<string>, hash: string, texture: Option<(real, real)>)

  /** A viewport: its name (the canvas id, or null) and its children. */
  datatype Viewport = Viewport(name: Option<CanvasId>, children: seq<Sprite>)

  datatype SaveError =
    | CanvasIdNotFound
    | ViewportNotLoaded
    | TooManyImages(count: nat, viewportName: Option<CanvasId>)
    | MissingTexture

  function Message(e: SaveError): string {
    match e
    case CanvasIdNotFound => "Canvas ID not found"
    case ViewportNotLoaded => "Viewport is not loaded"
    case TooManyImages(_, _) => "Expected to only have one image loaded"
    case MissingTexture => "Could not find texture for image"
  }

  // ---- Records ------------------------------------------------------------

  function OptStr(s: Option<string>): Json {
    if s.Some? then JStr(s.value) else JNull
  }

  /** `getImageData`: null without a picture; an error when its texture is
      missing; otherwise name, path, hash and the texture's size. */
  function ImageData(picture: Option<Sprite>): (r: Result<Json, SaveError>)
    ensures picture.None? ==> r == Ok(JNull)
    ensures picture.Some? && picture.value.texture.None? ==> r == Err(MissingTexture)
    ensures picture.Some? && picture.value.texture.Some? ==>
      && r.Ok? && r.value.JObj? && r.value.fields.Keys == {"name", "path", "sha256", "size"}
      && r.value.fields["sha256"] == JStr(picture.value.hash)
  {
    match picture
    case None => Ok(JNull)
    case Some(s) =>
      match s.texture
      case None => Err(MissingTexture)
      case Some((w, h)) =>
        Ok(JObj(map["name" := OptStr(s.name), "path" := OptStr(s.path), "sha256" := JStr(s.hash),
                    "size" := JObj(map["width" := JNum(w), "height" := JNum(h)])]))
  }

  function StrsToJson(ss: seq<string>): (r: seq<Json>)
    ensures |r| == |ss|
    ensures forall i :: 0 <= i < |ss| ==> r[i] == JStr(ss[i])
  {
    if ss == [] then [] else [JStr(ss[0])] + StrsToJson(ss[1..])
  }

  /** The fields the marking's kind adds: `angleRad`, `endpoint` or `points`. */
  function KindFields(s: Shape): (r: map<string, Json>)
    ensures r.Keys <= {"angleRad", "endpoint", "points"}
    ensures "angleRad" in r <==> s.RayShape?
    ensures "endpoint" in r <==> (s.LineSegmentShape? || s.MeasurementShape? || s.BoundingBoxShape?)
    ensures "points" in r <==> (s.PolygonShape? || s.RectangleShape?)
  {
    match s
    case PointShape => map[]
    case RayShape(a) => map["angleRad" := JNum(a)]
    case LineSegmentShape(e) => map["endpoint" := SaveTracing.PointToJson(e)]
    case MeasurementShape(e) => map["endpoint" := SaveTracing.PointToJson(e)]
    case BoundingBoxShape(e) => map["endpoint" := SaveTracing.PointToJson(e)]
    case PolygonShape(ps) => map["points" := JArr(SaveTracing.PointsToJson(ps))]
    case RectangleShape(ps) => map["points" := JArr(SaveTracing.PointsToJson(ps))]
  }

  /** One exported marking: ids, class, origin and type, plus the kind's own
      field; the label is not exported. */
  function ExportMarking(m: Marking): (r: Json)
    ensures r.JObj?
    ensures "markingClass" in r.fields && r.fields["markingClass"] == JStr(m.MarkingClass().Name())
    ensures "origin" in r.fields && r.fields["origin"] == SaveTracing.PointToJson(m.origin)
    ensures "typeId" in r.fields && r.fields["typeId"] == JStr(m.typeId)
    ensures "ids" in r.fields <==> m.ids.Some?
    ensures m.ids.Some? ==> r.fields["ids"] == JArr(StrsToJson(m.ids.value))
    ensures "angleRad" in r.fields <==> m.shape.RayShape?
    ensures "endpoint" in r.fields <==> (m.shape.LineSegmentShape? || m.shape.MeasurementShape? || m.shape.BoundingBoxShape?)
    ensures "points" in r.fields <==> (m.shape.PolygonShape? || m.shape.RectangleShape?)
    ensures "label" !in r.fields
  {
    var base := map["markingClass" := JStr(m.MarkingClass().Name()),
                    "origin" := SaveTracing.PointToJson(m.origin), "typeId" := JStr(m.typeId)];
    var withIds := if m.ids.Some? then base["ids" := JArr(StrsToJson(m.ids.value))] else base;
    var kind := KindFields(m.shape);
    assert withIds.Keys <= {"markingClass", "origin", "typeId", "ids"};
    assert "markingClass" !in kind && "origin" !in kind && "typeId" !in kind && "ids" !in kind && "label" !in kind;
    JObj(withIds + kind)
  }

  function ExportMarkings(ms: seq<Marking>): (r: seq<Json>)
    ensures |r| == |ms|
    ensures forall i :: 0 <= i < |ms| ==> r[i] == ExportMarking(ms[i])
  {
    if ms == [] then [] else ExportMarkings(ms[..|ms| - 1]) + [ExportMarking(ms[|ms| - 1])]
  }

  /** The types in use on either canvas, in store order. */
  function UsedTypes(types: seq<MarkingType>, left: seq<Marking>, right: seq<Marking>): (r: seq<MarkingType>)
    ensures |r| <= |types|
    ensures forall t :: t in r <==> t in types && (MarkingTypes.InUse(t.id, left) || MarkingTypes.InUse(t.id, right))
  {
    if types == [] then []
    else
      var rest := UsedTypes(types[1..], left, right);
      if MarkingTypes.InUse(types[0].id, left) || MarkingTypes.InUse(types[0].id, right) then [types[0]] + rest
      else rest
  }

  function TypeRefs(ts: seq<MarkingType>): (r: seq<Json>)
    ensures |r| == |ts|
    ensures forall i :: 0 <= i < |ts| ==> r[i] == JObj(map["id" := JStr(ts[i].id), "name" := JStr(ts[i].name)])
  {
    if ts == [] then [] else [JObj(map["id" := JStr(ts[0].id), "name" := JStr(ts[0].name)])] + TypeRefs(ts[1..])
  }

  /** What `getData` reads from the stores. */
  datatype StoreView = StoreView(
    version: string, workingMode: Option<string>, types: seq<MarkingType>,
    left: seq<Marking>, right: seq<Marking>)

  function MarkingsOf(sv: StoreView, c: CanvasId): seq<Marking> {
    if c == Left then sv.left else sv.right
  }

  function Metadata(sv: StoreView, image: Json, compared: Json): Json {
    var base := map[
      "software" := JObj(map["name" := JStr(SoftwareName), "version" := JStr(sv.version)]),
      "image" := image, "compared_image" := compared,
      "types" := JArr(TypeRefs(UsedTypes(sv.types, sv.left, sv.right)))];
    JObj(if sv.workingMode.Some? then base["workingMode" := JStr(sv.workingMode.value)] else base)
  }

  /** `getData`: the canvas id is checked first, then both image records. */
  function GetData(v: Viewport, picture: Option<Sprite>, opposite: Option<Sprite>, sv: StoreView): (r: Result<Json, SaveError>)
    ensures v.name.None? ==> r == Err(CanvasIdNotFound)
    ensures v.name.Some? && ImageData(picture).Err? ==> r == Err(MissingTexture)
    ensures r.Ok? <==> v.name.Some? && ImageData(picture).Ok? && ImageData(opposite).Ok?
    ensures r.Ok? ==> r.value.JObj? && r.value.fields.Keys == {"metadata", "data"}
    ensures r.Ok? ==> Get(r.value, "data") == Some(JObj(map["markings" := JArr(ExportMarkings(MarkingsOf(sv, v.name.value)))]))
  {
    match v.name
    case None => Err(CanvasIdNotFound)
    case Some(id) =>
      match ImageData(picture)
      case Err(e) => Err(e)
      case Ok(image) =>
        match ImageData(opposite)
        case Err(e) => Err(e)
        case Ok(compared) =>
          Ok(JObj(map["metadata" := Metadata(sv, image, compared),
                      "data" := JObj(map["markings" := JArr(ExportMarkings(MarkingsOf(sv, id)))])]))
  }

  /** The type list names only store types some canvas uses. */
  lemma ExportedTypesAreUsed(sv: StoreView, t: MarkingType)
    requires t in UsedTypes(sv.types, sv.left, sv.right)
    ensures t in sv.types
    ensures exists m :: (m in sv.left || m in sv.right) && m.typeId == t.id
  {
    if MarkingTypes.InUse(t.id, sv.left) {
      var i :| 0 <= i < |sv.left| && sv.left[i].typeId == t.id;
      assert sv.left[i] in sv.left;
    } else {
      var i :| 0 <= i < |sv.right| && sv.right[i].typeId == t.id;
      assert sv.right[i] in sv.right;
    }
  }

  // ---- Flows ----------------------------------------------------------------

  function ValidateViewport(v: Option<Viewport>): (r: Result<Viewport, SaveError>)
    ensures v.None? ==> r == Err(ViewportNotLoaded)
    ensures v.Some? && |v.value.children| > 1 ==> r == Err(TooManyImages(|v.value.children|, v.value.name))
    ensures r.Ok? <==> v.Some? && |v.value.children| <= 1
    ensures r.Ok? ==> r.value == v.value
  {
    match v
    case None => Err(ViewportNotLoaded)
    case Some(vp) => if |vp.children| > 1 then Err(TooManyImages(|vp.children|, vp.name)) else Ok(vp)
  }

  /** `getChildAt(0)`, or `find(x => x instanceof Sprite)` (the children
      are the image sprites): undefined when there are none. */
  function FirstPicture(v: Viewport): Option<Sprite> {
    if |v.children| == 0 then None else Some(v.children[0])
  }

  datatype Effect =
    | ErrorDialog(error: SaveError)
    | SaveDialog(defaultPath: string)
    | WriteFile(path: string, content: Json)
    | MarkSaved(canvas: Option<CanvasId>, leftHash: string, rightHash: string)
    | SuccessToast
    | ErrorToast
    | Unhandled(error: SaveError)
    /** The returned promise rejects with the write's own reason. */
    | UnhandledWriteRejection

  /** The two canvases' current hashes, read after the write. */
  datatype Hashes = Hashes(left: string, right: string)

  /** `saveMarkingsDataToPath`. The opposite picture is the first sprite of
      the opposite canvas's viewport, when both exist; `writeOk` is whether
      `writeTextFile` resolved. Neither an error from `getData` nor a
      rejected write is caught, and either one skips marking the canvas
      saved. */
  function SaveToPath(v: Viewport, path: string, opposite: Option<Viewport>, sv: StoreView, h: Hashes,
                      writeOk: bool): (effects: seq<Effect>)
    ensures |v.children| > 1 ==> effects == [ErrorDialog(TooManyImages(|v.children|, v.name))]
    ensures |v.children| <= 1 && GetData(v, FirstPicture(v), OppositePictureForPath(v, opposite), sv).Err? ==>
      effects == [Unhandled(GetData(v, FirstPicture(v), OppositePictureForPath(v, opposite), sv).error)]
    ensures |v.children| <= 1 && GetData(v, FirstPicture(v), OppositePictureForPath(v, opposite), sv).Ok? ==>
      && |effects| == 2
      && effects[0] == WriteFile(path, GetData(v, FirstPicture(v), OppositePictureForPath(v, opposite), sv).value)
      && effects[1] == (if writeOk then MarkSaved(v.name, h.left, h.right) else UnhandledWriteRejection)
    ensures (exists i :: 0 <= i < |effects| && effects[i].MarkSaved?) ==>
      writeOk && effects[0].WriteFile? && effects[1] == MarkSaved(v.name, h.left, h.right)
  {
    match ValidateViewport(Some(v))
    case Err(e) => [ErrorDialog(e)]
    case Ok(_) =>
      match GetData(v, FirstPicture(v), OppositePictureForPath(v, opposite), sv)
      case Err(e) => [Unhandled(e)]
      case Ok(data) => [WriteFile(path, data), if writeOk then MarkSaved(v.name, h.left, h.right) else UnhandledWriteRejection]
  }

  function OppositePictureForPath(v: Viewport, opposite: Option<Viewport>): Option<Sprite> {
    if v.name.None? || opposite.None? then None else FirstPicture(opposite.value)
  }

  /** The dialog flow validates the opposite viewport too, and takes no
      picture from it when that fails. */
  function OppositePictureForDialog(v: Viewport, opposite: Option<Viewport>): (r: Option<Sprite>)
    ensures opposite.Some? && |opposite.value.children| > 1 ==> r.None?
  {
    if v.name.None? then None
    else
      match ValidateViewport(opposite)
      case Err(_) => None
      case Ok(o) => FirstPicture(o)
  }

  /** The dialog's default path. `basename` is awaited only for a named
      picture, and its rejection rejects the whole name. */
  function DefaultMarkingsFileName(picture: Option<Sprite>, basename: string -> Promised<string>): (r: Promised<string>)
    ensures (picture.None? || picture.value.name.None?) ==> r == Ok("marking.json")
    ensures picture.Some? && picture.value.name.Some? && basename(picture.value.name.value).Ok? ==>
      r == Ok(basename(picture.value.name.value).value + ".json")
    ensures r.Err? <==> picture.Some? && picture.value.name.Some? && basename(picture.value.name.value).Err?
  {
    if picture.None? || picture.value.name.None? then Ok("marking.json")
    else
      match basename(picture.value.name.value)
      case Err(e) => Err(e)
      case Ok(b) => Ok(b + ".json")
  }

  /** `saveMarkingsDataWithDialog`. `chosen` is how the save dialog settled
      (a null path when cancelled) and `writeOk` whether `writeTextFile`
      resolved. Everything after the viewport checks runs inside one `try`,
      so any rejection or throw ends in the error toast. */
  function SaveWithDialog(v: Option<Viewport>, opposite: Option<Viewport>, basename: string -> Promised<string>,
                          chosen: Promised<Option<string>>, sv: StoreView, h: Hashes, writeOk: bool): (effects: seq<Effect>)
    ensures ValidateViewport(v).Err? ==> effects == [ErrorDialog(ValidateViewport(v).error)]
    ensures ValidateViewport(v).Ok? && DefaultMarkingsFileName(FirstPicture(v.value), basename).Err? ==>
      effects == [ErrorToast]
    ensures ValidateViewport(v).Ok? && DefaultMarkingsFileName(FirstPicture(v.value), basename).Ok? ==>
      |effects| >= 1 && effects[0] == SaveDialog(DefaultMarkingsFileName(FirstPicture(v.value), basename).value)
    ensures ValidateViewport(v).Ok? && DefaultMarkingsFileName(FirstPicture(v.value), basename).Ok? && chosen == Ok(None) ==>
      |effects| == 1
    ensures ValidateViewport(v).Ok? && DefaultMarkingsFileName(FirstPicture(v.value), basename).Ok? && chosen.Err? ==>
      |effects| == 2 && effects[1] == ErrorToast
    ensures (exists i :: 0 <= i < |effects| && effects[i].WriteFile?) <==>
      ValidateViewport(v).Ok? && DefaultMarkingsFileName(FirstPicture(v.value), basename).Ok? &&
      chosen.Ok? && chosen.value.Some? &&
      GetData(v.value, FirstPicture(v.value), OppositePictureForDialog(v.value, opposite), sv).Ok?
    ensures (exists i :: 0 <= i < |effects| && effects[i].MarkSaved?) <==>
      (exists i :: 0 <= i < |effects| && effects[i].WriteFile?) && writeOk
    ensures SuccessToast in effects <==> (exists i :: 0 <= i < |effects| && effects[i].MarkSaved?)
    ensures forall i :: 0 <= i < |effects| && effects[i].MarkSaved? ==>
      0 < i && effects[i - 1].WriteFile? && effects[i] == MarkSaved(v.value.name, h.left, h.right)
    ensures ValidateViewport(v).Ok? ==>
      (ErrorToast in effects <==>
        SuccessToast !in effects && !(DefaultMarkingsFileName(FirstPicture(v.value), basename).Ok? && chosen == Ok(None)))
  {
    match ValidateViewport(v)
    case Err(e) => [ErrorDialog(e)]
    case Ok(vp) =>
      var picture := FirstPicture(vp);
      match DefaultMarkingsFileName(picture, basename)
      case Err(_) => [ErrorToast]
      case Ok(name) =>
        var dialog := SaveDialog(name);
        match chosen
        case Err(_) => [dialog, ErrorToast]
        case Ok(None) => [dialog]
        case Ok(Some(path)) =>
          AfterDialog(dialog, path, GetData(vp, picture, OppositePictureForDialog(vp, opposite), sv), vp.name, h, writeOk)
  }

  /** What follows the save dialog once a path was chosen: a write when the
      data could be built; then, when the write resolved, the canvas marked
      saved and the success toast; an error toast in every other case. */
  function AfterDialog(dialog: Effect, path: string, data: Result<Json, SaveError>,
                       canvas: Option<CanvasId>, h: Hashes, writeOk: bool): (effects: seq<Effect>)
    requires dialog.SaveDialog?
    ensures |effects| >= 1 && effects[0] == dialog
    ensures (exists i :: 0 <= i < |effects| && effects[i].WriteFile?) <==> data.Ok?
    ensures data.Ok? ==> |effects| >= 2 && effects[1] == WriteFile(path, data.value)
    ensures (exists i :: 0 <= i < |effects| && effects[i].MarkSaved?) <==> data.Ok? && writeOk
    ensures SuccessToast in effects <==> data.Ok? && writeOk
    ensures ErrorToast in effects <==> !(data.Ok? && writeOk)
    ensures forall i :: 0 <= i < |effects| && effects[i].MarkSaved? ==>
      0 < i && effects[i - 1].WriteFile? && effects[i] == MarkSaved(canvas, h.left, h.right)
  {
    match data
    case Err(_) => [dialog, ErrorToast]
    case Ok(content) =>
      if writeOk then
        var written := [dialog, WriteFile(path, content), MarkSaved(canvas, h.left, h.right), SuccessToast];
        assert written[1].WriteFile? && written[2].MarkSaved?;
        written
      else
        var failed := [dialog, WriteFile(path, content), ErrorToast];
        assert failed[1].WriteFile?;
        failed
  }
}
