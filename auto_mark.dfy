/** Automatic marking with the SourceAFIS command-line tool: the tool is
    run on the canvas's image, its output is checked step by step, and
    every minutia whose marking type can be resolved is added to the
    canvas as a ray. The tool's run (exit code, files written, parsed
    JSON) is an input; `toLowerCase` is modelled on ASCII letters. */
module AutoMark {
  import opened Wrappers
  import opened Geometry
  import opened Markings
  import opened Json
  import MarkingTypes
  import MarkingsStore
  import SaveMarkings
  import opened SourceafisConvert
  import opened SourceafisTypes

  // ---- Adding the rays -----------------------------------------------------

  /** `Math.PI / 2` in double precision. */
  const HalfPi: real := 1.5707963267948966

  /** The rays the loop adds: the i-th minutia has label `first + i`
      whether or not it is kept; one whose type does not resolve (or
      resolves to an empty id) is skipped. */
  function AddedRays(ms: seq<Minutia>, resolve: string -> Option<string>, first: int): (r: seq<Marking>)
    ensures |r| <= |ms|
  {
    if ms == [] then [] else RayFor(ms[0], resolve, first) + AddedRays(ms[1..], resolve, first + 1)
  }

  /** The ray one minutia contributes, if any; `resolve` is the type
      resolution against the current marking types. */
  function RayFor(m: Minutia, resolve: string -> Option<string>, labelNo: int): (r: seq<Marking>)
    ensures |r| <= 1
  {
    var t := resolve(m.kind);
    if t.Some? && |t.value| > 0 then [Ray(labelNo, Point(m.x, m.y), t.value, m.direction - HalfPi)] else []
  }

  /** `resolveSourceafisTypeId` against the given marking types. */
  function Resolver(types: seq<MarkingType>): string -> Option<string> {
    kind => ResolveTypeId(kind, types)
  }

  lemma {:induction false} AddedRaysAppend(ms: seq<Minutia>, m: Minutia, resolve: string -> Option<string>, first: int)
    ensures AddedRays(ms + [m], resolve, first) == AddedRays(ms, resolve, first) + RayFor(m, resolve, first + |ms|)
  {
    if ms == [] {
      assert ms + [m] == [m] && [m][1..] == [];
    } else {
      assert (ms + [m])[0] == ms[0] && (ms + [m])[1..] == ms[1..] + [m];
      AddedRaysAppend(ms[1..], m, resolve, first + 1);
    }
  }

  /** One more minutia: its ray, if any, is appended and its label's
      hash becomes the last one. */
  lemma AddedRaysStep(ms: seq<Minutia>, i: nat, resolve: string -> Option<string>, first: int,
                      hashFor: int -> string, before: string)
    requires i < |ms|
    ensures var t := resolve(ms[i].kind);
      var added := AddedRays(ms[..i], resolve, first);
      if t.Some? && |t.value| > 0 then
        var ray := Ray(first + i, Point(ms[i].x, ms[i].y), t.value, ms[i].direction - HalfPi);
        && AddedRays(ms[..i + 1], resolve, first) == added + [ray]
        && LastHash(added + [ray], hashFor, before) == hashFor(first + i)
      else AddedRays(ms[..i + 1], resolve, first) == added
  {
    assert ms[..i + 1] == ms[..i] + [ms[i]];
    AddedRaysAppend(ms[..i], ms[i], resolve, first);
    var added := AddedRays(ms[..i], resolve, first);
    var next := RayFor(ms[i], resolve, first + i);
    if next == [] {
      assert added + next == added;
    }
  }

  /** Every added ray is typed, lies at a minutia, and is turned a
      quarter turn back from the minutia's direction. */
  lemma {:induction false} AddedRaysShape(ms: seq<Minutia>, resolve: string -> Option<string>, first: int)
    ensures forall r :: r in AddedRays(ms, resolve, first) ==>
      && r.MarkingClass() == RayClass && |r.typeId| > 0
      && exists i :: 0 <= i < |ms| && r.labelNo == first + i && r.origin == Point(ms[i].x, ms[i].y) &&
           r.shape.angleRad == ms[i].direction - HalfPi
  {
    if ms != [] {
      AddedRaysShape(ms[1..], resolve, first + 1);
      assert AddedRays(ms, resolve, first) == RayFor(ms[0], resolve, first) + AddedRays(ms[1..], resolve, first + 1);
      forall r | r in AddedRays(ms[1..], resolve, first + 1)
        ensures exists i :: 0 <= i < |ms| && r.labelNo == first + i && r.origin == Point(ms[i].x, ms[i].y) &&
                             r.shape.angleRad == ms[i].direction - HalfPi
      {
        var j :| 0 <= j < |ms[1..]| && r.labelNo == first + 1 + j && r.origin == Point(ms[1..][j].x, ms[1..][j].y)
          && r.shape.angleRad == ms[1..][j].direction - HalfPi;
        assert ms[1..][j] == ms[j + 1];
      }
    }
  }

  /** The hash the store publishes after a run of `addOne` calls: that of
      the last marking added, or the one it had if none was. */
  function LastHash(added: seq<Marking>, hashFor: int -> string, before: string): (h: string)
    ensures added == [] ==> h == before
  {
    if added == [] then before else hashFor(added[|added| - 1].labelNo)
  }

  lemma LastHashAppend(added: seq<Marking>, next: seq<Marking>, hashFor: int -> string, before: string)
    requires |next| <= 1
    ensures LastHash(added + next, hashFor, before) ==
      if next == [] then LastHash(added, hashFor, before) else hashFor(next[0].labelNo)
  {
    if next == [] {
      assert added + next == added;
    }
  }

  /** The `for..of` loop over the minutiae: one label per minutia, one
      `addOne` per resolved one. `resolve` is `resolveSourceafisTypeId`
      (see `Resolver`); `hashFor` is the hash `addOne` publishes for the
      marking with that label. */
  method AddMinutiae(store: MarkingsStore.CanvasStore, ms: seq<Minutia>, resolve: string -> Option<string>, hashFor: int -> string)
    modifies store`markings, store`markingsHash, store`nextLabel
    ensures store.markings == old(store.markings) + AddedRays(ms, resolve, old(store.nextLabel))
    ensures store.nextLabel == old(store.nextLabel) + |ms|
    ensures store.markingsHash == LastHash(AddedRays(ms, resolve, old(store.nextLabel)), hashFor, old(store.markingsHash))
  {
    ghost var m0, l0, h0 := store.markings, store.nextLabel, store.markingsHash;
    ghost var added: seq<Marking> := [];
    var i := 0;
    while i < |ms|
      invariant 0 <= i <= |ms|
      invariant added == AddedRays(ms[..i], resolve, l0)
      invariant store.nextLabel == l0 + i
      invariant store.markings == m0 + added
      invariant store.markingsHash == LastHash(added, hashFor, h0)
    {
      AddedRaysStep(ms, i, resolve, l0, hashFor, h0);
      var labelNo := store.GetLabel();
      var typeId := resolve(ms[i].kind);
      if typeId.Some? && |typeId.value| > 0 {
        var ray := Ray(labelNo, Point(ms[i].x, ms[i].y), typeId.value, ms[i].direction - HalfPi);
        store.AddOne(ray, hashFor(labelNo));
        added := added + [ray];
      }
      i := i + 1;
    }
    assert ms[..i] == ms;
  }

  // ---- The guard chain ------------------------------------------------------

  /** What running the tool produced. `exitCode` None is a null code;
      `parsed` None is a parse failure. */
  datatype ToolRun = ToolRun(exitCode: Option<int>, templateExists: bool, jsonExists: bool, parsed: Option<Json>)

  datatype Outcome =
    | NoImage | NoFileName | ToolFailed | JsonMissing | ParseFailed | NotAnObject
    | NoCanvas | UnreadableMinutiae | Added(count: nat)

  /** `getImagePathFromViewport` on the first child of the viewport. */
  function ImagePath(picture: Option<SaveMarkings.Sprite>): (r: Result<string, string>)
    ensures picture.None? ==> r == Err("No image loaded in viewport")
    ensures picture.Some? && (picture.value.name.None? || picture.value.name.value == "") ==>
      r == Err("Image filename not available")
    ensures r.Ok? && picture.value.path.Some? && picture.value.path.value != "" ==>
      r.value == picture.value.path.value + "/" + picture.value.name.value
    ensures r.Ok? && (picture.value.path.None? || picture.value.path.value == "") ==>
      r.value == picture.value.name.value
  {
    match picture
    case None => Err("No image loaded in viewport")
    case Some(s) =>
      if s.name.None? || s.name.value == "" then Err("Image filename not available")
      else if s.path.Some? && s.path.value != "" then Ok(s.path.value + "/" + s.name.value)
      else Ok(s.name.value)
  }

  function MinutiaOf(j: Json): Option<Minutia> {
    match j
    case JObj(f) =>
      if "x" in f && "y" in f && "direction" in f && "type" in f
        && f["x"].JNum? && f["y"].JNum? && f["direction"].JNum? && f["type"].JStr?
      then Some(Minutia(f["x"].n, f["y"].n, f["direction"].n, f["type"].s))
      else None
    case _ => None
  }

  function MinutiaeOf(items: seq<Json>): (r: Option<seq<Minutia>>)
    ensures r.Some? ==> |r.value| == |items|
  {
    if items == [] then Some([])
    else
      match (MinutiaOf(items[0]), MinutiaeOf(items[1..]))
      case (Some(m), Some(rest)) => Some([m] + rest)
      case _ => None
  }

  /** `root.minutiae ?? []` read as minutiae; None when it holds values the
      model does not represent. */
  function RootMinutiae(root: Json): Option<seq<Minutia>> {
    match Get(root, "minutiae")
    case None => Some([])
    case Some(JNull) => Some([])
    case Some(JArr(items)) => MinutiaeOf(items)
    case Some(_) => None
  }

  /** `autoMarkWithSourceafis`: each failed check returns (or is caught)
      before any marking is added; `store` is the canvas's store when the
      viewport names a canvas. */
  method AutoMarkWithSourceafis(store: MarkingsStore.CanvasStore, picture: Option<SaveMarkings.Sprite>,
                                run: ToolRun, canvasId: Option<CanvasId>, types: seq<MarkingType>,
                                hashFor: int -> string)
      returns (outcome: Outcome)
    requires canvasId.Some? ==> store.canvasId == canvasId.value
    modifies store`markings, store`markingsHash, store`nextLabel
    ensures !outcome.Added? ==>
      store.markings == old(store.markings) && store.nextLabel == old(store.nextLabel) &&
      store.markingsHash == old(store.markingsHash)
    ensures outcome.Added? <==>
      && ImagePath(picture).Ok? && run.exitCode == Some(0) && run.templateExists && run.jsonExists
      && run.parsed.Some? && (run.parsed.value.JObj? || run.parsed.value.JArr?) && canvasId.Some?
      && RootMinutiae(run.parsed.value).Some?
    ensures outcome.Added? ==>
      var ms := RootMinutiae(run.parsed.value).value;
      && outcome.count == |ms|
      && store.markings == old(store.markings) + AddedRays(ms, Resolver(types), old(store.nextLabel))
      && store.nextLabel == old(store.nextLabel) + |ms|
  {
    match ImagePath(picture)
    case Err(e) =>
      outcome := if e == "No image loaded in viewport" then NoImage else NoFileName;
      return;
    case Ok(_) =>
    if run.exitCode != Some(0) || !run.templateExists {
      return ToolFailed;
    }
    if !run.jsonExists {
      return JsonMissing;
    }
    if run.parsed.None? {
      return ParseFailed;
    }
    var root := run.parsed.value;
    if !(root.JObj? || root.JArr?) {
      return NotAnObject;
    }
    if canvasId.None? {
      return NoCanvas;
    }
    var ms := RootMinutiae(root);
    if ms.None? {
      return UnreadableMinutiae;
    }
    AddMinutiae(store, ms.value, Resolver(types), hashFor);
    outcome := Added(|ms.value|);
  }

  /** The automatic path and the converter disagree on orientation by a
      quarter turn, and on which type id kind "ending" gets. */
  lemma ConvertersDisagree(m: Minutia, labelAt: nat -> int, types: seq<MarkingType>, first: int)
    requires m.kind == "ending"
    requires MarkingTypes.HasTypeId(types, BifurcationId)
    ensures Convert(Some([m]), labelAt)[0].typeId == RidgeEndingId
    ensures AddedRays([m], Resolver(types), first) == [Ray(first, Point(m.x, m.y), BifurcationId, m.direction - HalfPi)]
    ensures Convert(Some([m]), labelAt)[0].shape.angleRad - AddedRays([m], Resolver(types), first)[0].shape.angleRad == HalfPi
  {
    var c := Convert(Some([m]), labelAt);
    assert c[0].typeId == RidgeEndingId && c[0].shape == RayShape(m.direction);
    assert DesiredId(m.kind) == BifurcationId;
    ResolveTypeIdSpec(m.kind, types);
    assert Resolver(types)(m.kind) == Some(BifurcationId);
    assert [m][1..] == [];
    assert AddedRays([m], Resolver(types), first) == RayFor(m, Resolver(types), first);
  }
}
