/** Loading tracing paths from a file: the shape validator, the decoding
    of `data.paths`, and the load flow with its confirmation step. */
module LoadTracing {
  import opened Wrappers
  import opened Geometry
  import opened Json
  import opened TracingStore
  import SaveTracing

  /** Evaluates `a && b` where either side may throw, left to right. */
  function AndThen(a: Result<bool, TypeError>, b: () -> Result<bool, TypeError>): Result<bool, TypeError> {
    match a
    case Err(e) => Err(e)
    case Ok(false) => Ok(false)
    case Ok(true) => b()
  }

  function Field(v: Json, key: string): Json {
    Get(v, key).GetOr(JNull)
  }

  /** `validateFileData`: the conjunction, in source order, of
        `typeof v === "object"`, `v !== null`, `"metadata" in v`,
        `"software" in v.metadata`, `"name" in v.metadata.software`,
        `v.metadata.software.name === "biometrics-studio"`, `"data" in v`,
        `"paths" in v.data` and `Array.isArray(v.data.paths)`.
      An `in` on a primitive throws. */
  function ValidateFileData(v: Json): Result<bool, TypeError> {
    if !(v.JObj? || v.JArr? || v.JNull?) || v.JNull? then Ok(false)
    else
      AndThen(HasKey(v, "metadata"), () =>
      AndThen(HasKey(Field(v, "metadata"), "software"), () =>
      AndThen(HasKey(Field(Field(v, "metadata"), "software"), "name"), () =>
      AndThen(Ok(Field(Field(Field(v, "metadata"), "software"), "name") == JStr(SaveTracing.SoftwareName)), () =>
      AndThen(HasKey(v, "data"), () =>
      AndThen(HasKey(Field(v, "data"), "paths"), () =>
      Ok(IsArray(Field(Field(v, "data"), "paths")))))))))
  }

  /** The accepted shape, stated directly. */
  predicate WellShaped(v: Json) {
    && v.JObj? && "metadata" in v.fields && "data" in v.fields
    && var metadata := v.fields["metadata"];
    && metadata.JObj? && "software" in metadata.fields
    && var software := metadata.fields["software"];
    && software.JObj? && "name" in software.fields
    && software.fields["name"] == JStr(SaveTracing.SoftwareName)
    && var data := v.fields["data"];
    && data.JObj? && "paths" in data.fields && data.fields["paths"].JArr?
  }

  /** The validator accepts exactly the well-shaped values. */
  lemma ValidateFileDataAccepts(v: Json)
    ensures ValidateFileData(v) == Ok(true) <==> WellShaped(v)
  {
  }

  /** The validator throws exactly when one of the probed members is a
      primitive or null while everything before it held. */
  lemma ValidateFileDataThrows(v: Json)
    ensures ValidateFileData(v).Err? <==>
      && v.JObj? && "metadata" in v.fields
      && (|| !(Field(v, "metadata").JObj? || Field(v, "metadata").JArr?)
          || (&& Field(v, "metadata").JObj? && "software" in Field(v, "metadata").fields
              && var software := Field(Field(v, "metadata"), "software");
              || !(software.JObj? || software.JArr?)
              || (&& software.JObj? && Get(software, "name") == Some(JStr(SaveTracing.SoftwareName))
                  && "data" in v.fields
                  && !(Field(v, "data").JObj? || Field(v, "data").JArr?))))
  {
  }

  function PointFromJson(j: Json): Option<Point> {
    match (Get(j, "x"), Get(j, "y"))
    case (Some(JNum(x)), Some(JNum(y))) => Some(Point(x, y))
    case _ => None
  }

  function PointsFromJson(js: seq<Json>): Option<seq<Point>> {
    if js == [] then Some([])
    else match (PointFromJson(js[0]), PointsFromJson(js[1..]))
      case (Some(p), Some(ps)) => Some([p] + ps)
      case _ => None
  }

  function PathFromJson(j: Json): Option<TracingPath> {
    match (Get(j, "id"), Get(j, "points"), Get(j, "color"), Get(j, "opacity"), Get(j, "brushSize"))
    case (Some(JStr(id)), Some(JArr(pts)), Some(JStr(color)), Some(JNum(opacity)), Some(JNum(brush))) =>
      (match PointsFromJson(pts)
       case Some(points) => Some(TracingPath(id, points, color, opacity, brush))
       case None => None)
    case _ => None
  }

  function PathsFromJson(js: seq<Json>): Option<Paths> {
    if js == [] then Some([])
    else match (PathFromJson(js[0]), PathsFromJson(js[1..]))
      case (Some(p), Some(ps)) => Some([p] + ps)
      case _ => None
  }

  lemma {:induction false} PointsRoundTrip(pts: seq<Point>)
    ensures PointsFromJson(SaveTracing.PointsToJson(pts)) == Some(pts)
  {
    if pts != [] {
      PointsRoundTrip(pts[1..]);
      assert [pts[0]] + pts[1..] == pts;
    }
  }

  /** Decoding the exported paths gives back exactly the store's paths. */
  lemma {:induction false} PathsRoundTrip(ps: Paths)
    ensures PathsFromJson(SaveTracing.PathsToJson(ps)) == Some(ps)
  {
    if ps != [] {
      var js := SaveTracing.PathsToJson(ps);
      assert js[0] == SaveTracing.PathToJson(ps[0]) && js[1..] == SaveTracing.PathsToJson(ps[1..]);
      PathRoundTrip(ps[0]);
      PathsRoundTrip(ps[1..]);
      assert [ps[0]] + ps[1..] == ps;
    }
  }

  lemma PathRoundTrip(p: TracingPath)
    ensures PathFromJson(SaveTracing.PathToJson(p)) == Some(p)
  {
    PointsRoundTrip(p.points);
    var j := SaveTracing.PathToJson(p);
    assert Get(j, "id") == Some(JStr(p.id)) && Get(j, "color") == Some(JStr(p.color));
    assert Get(j, "points") == Some(JArr(SaveTracing.PointsToJson(p.points)));
    assert Get(j, "opacity") == Some(JNum(p.opacity)) && Get(j, "brushSize") == Some(JNum(p.brushSize));
  }

  /** Every export record passes the loader's validation. */
  lemma ExportIsValid(version: string, ps: Paths)
    ensures ValidateFileData(SaveTracing.ExportRecord(version, ps)) == Ok(true)
  {
    ValidateFileDataAccepts(SaveTracing.ExportRecord(version, ps));
  }

  /** `clonePaths` reads `p.points.map` of every element: it throws unless
      each element is an object whose `points` is an array. */
  predicate CloneThrows(items: seq<Json>) {
    exists i :: 0 <= i < |items| && !IsArray(Field(items[i], "points")) 
  }

  datatype Effect =
    | ErrorDialog(message: string)
    | ConfirmDialog
    | SuccessToast
    | LoggedError
    /** Paths the source would load without checking their fields, which
        the typed store cannot hold; the store keeps its paths. */
    | Unrepresentable

  const FailedMessage: string := "Failed to load tracing data"
  const InvalidMessage: string := "Invalid tracing data file"

  /** What `loadTracingData` shows, and the paths it loads, if any.
      `parsed` is None when reading or parsing the file threw. */
  function LoadPlan(parsed: Option<Json>, current: Paths, confirmed: bool): (r: (seq<Effect>, Option<Paths>))
    ensures r.1.Some? ==> parsed.Some? && WellShaped(parsed.value) && (current == [] || confirmed)
    ensures parsed.Some? && ValidateFileData(parsed.value) == Ok(false) ==>
      r == ([ErrorDialog(InvalidMessage)], None)
    ensures (ConfirmDialog in r.0) <==> parsed.Some? && WellShaped(parsed.value) && current != []
    ensures SuccessToast in r.0 <==>
      parsed.Some? && WellShaped(parsed.value) && (current == [] || confirmed) &&
      !CloneThrows(Field(Field(parsed.value, "data"), "paths").items)
  {
    match parsed
    case None => ([LoggedError, ErrorDialog(FailedMessage)], None)
    case Some(v) =>
      match ValidateFileData(v)
      case Err(_) => ([LoggedError, ErrorDialog(FailedMessage)], None)
      case Ok(false) => ([ErrorDialog(InvalidMessage)], None)
      case Ok(true) =>
        ValidateFileDataAccepts(v);
        var asked := if current != [] then [ConfirmDialog] else [];
        if current != [] && !confirmed then (asked, None)
        else
          var items := Field(Field(v, "data"), "paths").items;
          if CloneThrows(items) then (asked + [LoggedError, ErrorDialog(FailedMessage)], None)
          else match PathsFromJson(items)
            case None => (asked + [Unrepresentable, SuccessToast], None)
            case Some(ps) => (asked + [SuccessToast], Some(ps))
  }

  /** `loadTracingData` on one canvas's store. */
  method LoadTracingData(store: Store, parsed: Option<Json>, confirmed: bool) returns (effects: seq<Effect>)
    modifies store
    ensures effects == LoadPlan(parsed, old(store.paths), confirmed).0
    ensures LoadPlan(parsed, old(store.paths), confirmed).1.None? ==> store.Current() == old(store.Current())
    ensures LoadPlan(parsed, old(store.paths), confirmed).1.Some? ==>
      store.Current() == Loaded(old(store.Current()), LoadPlan(parsed, old(store.paths), confirmed).1.value)
  {
    var plan := LoadPlan(parsed, store.paths, confirmed);
    effects := plan.0;
    if plan.1.Some? {
      store.LoadPaths(plan.1.value);
    }
  }

  /** A saved file loads back into the same paths with an empty history,
      asking for confirmation only over a non-empty canvas. */
  lemma SaveThenLoad(version: string, ps: Paths, current: Paths, confirmed: bool)
    requires current == [] || confirmed
    ensures LoadPlan(Some(SaveTracing.ExportRecord(version, ps)), current, confirmed).1 == Some(ps)
  {
    var v := SaveTracing.ExportRecord(version, ps);
    ExportIsValid(version, ps);
    PathsRoundTrip(ps);
    var items := Field(Field(v, "data"), "paths").items;
    assert items == SaveTracing.PathsToJson(ps);
    ExportedPathsClone(ps);
  }

  lemma {:induction false} ExportedPathsClone(ps: Paths)
    ensures !CloneThrows(SaveTracing.PathsToJson(ps))
  {
    if ps != [] {
      ExportedPathsClone(ps[1..]);
      var js := SaveTracing.PathsToJson(ps);
      forall i | 0 <= i < |js| ensures IsArray(Field(js[i], "points")) {
        if i > 0 {
          assert js[i] == SaveTracing.PathsToJson(ps[1..])[i - 1];
        }
      }
    }
  }

  datatype DialogEffect = OpenDialog | CanvasNotFound | Load(path: string, canvasId: string) | RejectionDialog

  /** `loadTracingDataWithDialog`. `chosen` is how the open dialog settled
      (a null path when cancelled); a rejection is shown in an error
      dialog. `loadTracingData` catches its own errors, so the load is the
      last step. */
  function LoadWithDialog(chosen: Promised<Option<string>>, canvasId: Option<string>): (r: seq<DialogEffect>)
    ensures |r| >= 1 && r[0] == OpenDialog
    ensures (exists i :: 0 <= i < |r| && r[i].Load?) <==> chosen.Ok? && chosen.value.Some? && canvasId.Some?
    ensures chosen.Ok? && chosen.value.Some? && canvasId.Some? ==> r == [OpenDialog, Load(chosen.value.value, canvasId.value)]
    ensures RejectionDialog in r <==> chosen.Err?
    ensures CanvasNotFound in r <==> chosen.Ok? && chosen.value.Some? && canvasId.None?
  {
    match chosen
    case Err(_) => [OpenDialog, RejectionDialog]
    case Ok(None) => [OpenDialog]
    case Ok(Some(p)) =>
      match canvasId
      case None => [OpenDialog, CanvasNotFound]
      case Some(id) =>
        var r := [OpenDialog, Load(p, id)];
        assert r[1].Load?;
        r
  }
}
