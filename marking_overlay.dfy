/** The marking overlay of one canvas: the committed markings filtered by
    the hidden types, then, on top and unfiltered, the temporary marking
    and the auto-rotate and measurement lines that exist, all rotated about
    the same centre. */
module MarkingOverlay {
  import opened Wrappers
  import opened Geometry
  import opened Markings
  import MarkingsLayer

  /** The markings whose type is not hidden, in their original order. */
  function Visible(ms: seq<Marking>, hidden: seq<string>): (r: seq<Marking>)
    ensures |r| <= |ms|
    ensures forall m :: m in r <==> m in ms && m.typeId !in hidden
  {
    if ms == [] then []
    else if ms[0].typeId in hidden then Visible(ms[1..], hidden)
    else [ms[0]] + Visible(ms[1..], hidden)
  }

  /** Filtering keeps order: it distributes over concatenation. */
  lemma {:induction false} VisibleConcat(a: seq<Marking>, b: seq<Marking>, hidden: seq<string>)
    ensures Visible(a + b, hidden) == Visible(a, hidden) + Visible(b, hidden)
  {
    if a == [] {
      assert a + b == b;
    } else {
      assert (a + b)[1..] == a[1..] + b;
      VisibleConcat(a[1..], b, hidden);
    }
  }

  /** Nothing hidden shows everything; filtering twice is filtering once. */
  lemma {:induction false} VisibleLaws(ms: seq<Marking>, hidden: seq<string>)
    ensures Visible(ms, []) == ms
    ensures Visible(Visible(ms, hidden), hidden) == Visible(ms, hidden)
  {
    if ms != [] {
      VisibleLaws(ms[1..], hidden);
    }
  }

  datatype ViewportSize = ViewportSize(
    screenWorldWidth: real, screenWorldHeight: real, worldWidth: real, worldHeight: real)

  /** Screen pixels per world unit in each direction. */
  function Ratios(s: ViewportSize): (r: (real, real))
    requires s.worldWidth != 0.0 && s.worldHeight != 0.0
    ensures r.0 * s.worldWidth == s.screenWorldWidth && r.1 * s.worldHeight == s.screenWorldHeight
  {
    (s.screenWorldWidth / s.worldWidth, s.screenWorldHeight / s.worldHeight)
  }

  /** The rotation centre: the middle of the image sprite in viewport
      coordinates, or the origin when there is no sprite. */
  function RotationCentre(spriteSize: Option<(real, real)>, wr: real, hr: real): (c: Point)
    ensures spriteSize.None? ==> c == Point(0.0, 0.0)
    ensures spriteSize.Some? ==> c == Scale(Point(spriteSize.value.0 / 2.0, spriteSize.value.1 / 2.0), wr, hr)
  {
    match spriteSize
    case None => Point(0.0, 0.0)
    case Some((w, h)) => Point(w / 2.0 * wr, h / 2.0 * hr)
  }

  /** One `<Markings>` child: its markings and the alpha it is given. */
  datatype Layer = Layer(markings: seq<Marking>, alpha: Option<real>)

  /** What the overlay reads from the stores. */
  datatype Sources = Sources(
    markings: seq<Marking>, hidden: seq<string>, temporary: Option<Marking>,
    tempAutoRotate: Option<Marking>, finishedAutoRotate: Option<Marking>,
    tempMeasurement: Option<Marking>, finishedMeasurement: Option<Marking>)

  /** Every layer holds one marking and is drawn opaque. */
  predicate Opaque(ls: seq<Layer>) {
    forall i :: 0 <= i < |ls| ==> |ls[i].markings| == 1 && ls[i].alpha == Some(1.0)
  }

  /** 1 when the optional marking exists, 0 when not. */
  function Count(line: Option<Marking>): nat {
    if line.Some? then 1 else 0
  }

  /** `{line && <Markings markings={[line]} alpha={1} />}`. */
  function Overlay(line: Option<Marking>): (r: seq<Layer>)
    ensures Opaque(r) && |r| == Count(line)
    ensures line.Some? ==> r[0] == Layer([line.value], Some(1.0))
  {
    if line.Some? then [Layer([line.value], Some(1.0))] else []
  }

  lemma OpaqueConcat(a: seq<Layer>, b: seq<Layer>)
    requires Opaque(a) && Opaque(b)
    ensures Opaque(a + b)
  {
    forall i | 0 <= i < |a + b|
      ensures |(a + b)[i].markings| == 1 && (a + b)[i].alpha == Some(1.0)
    {
      if i < |a| {
        assert (a + b)[i] == a[i];
      } else {
        assert (a + b)[i] == b[i - |a|];
      }
    }
  }

  /** The layers drawn over the committed markings, in source order: the
      temporary marking, the temporary and the finished auto-rotate line,
      the temporary and the finished measurement line. Each one that
      exists is the layer right after those before it that exist, and
      holds only that marking. */
  function Tops(src: Sources): (r: seq<Layer>)
    ensures |r| == OverlayCount(src) && Opaque(r)
    ensures src.temporary.Some? ==> r[0] == Layer([src.temporary.value], Some(1.0))
    ensures src.tempAutoRotate.Some? ==>
      r[Count(src.temporary)] == Layer([src.tempAutoRotate.value], Some(1.0))
    ensures src.finishedAutoRotate.Some? ==>
      r[Count(src.temporary) + Count(src.tempAutoRotate)] == Layer([src.finishedAutoRotate.value], Some(1.0))
    ensures src.tempMeasurement.Some? ==>
      r[Count(src.temporary) + Count(src.tempAutoRotate) + Count(src.finishedAutoRotate)]
        == Layer([src.tempMeasurement.value], Some(1.0))
    ensures src.finishedMeasurement.Some? ==>
      r[Count(src.temporary) + Count(src.tempAutoRotate) + Count(src.finishedAutoRotate) + Count(src.tempMeasurement)]
        == Layer([src.finishedMeasurement.value], Some(1.0))
  {
    var a, b, c := Overlay(src.temporary), Overlay(src.tempAutoRotate), Overlay(src.finishedAutoRotate);
    var d, e := Overlay(src.tempMeasurement), Overlay(src.finishedMeasurement);
    OpaqueConcat(a, b);
    OpaqueConcat(a + b, c);
    OpaqueConcat(a + b + c, d);
    OpaqueConcat(a + b + c + d, e);
    a + b + c + d + e
  }

  function OverlayCount(src: Sources): nat {
    Count(src.temporary) + Count(src.tempAutoRotate) + Count(src.finishedAutoRotate)
      + Count(src.tempMeasurement) + Count(src.finishedMeasurement)
  }

  /** The overlay's children, or nothing while the viewport or the
      application is missing: the committed markings first, then the
      optional lines, each one right after those before it that exist. */
  function Layers(hasViewport: bool, hasApp: bool, src: Sources): (r: Option<seq<Layer>>)
    ensures r.None? <==> !hasViewport || !hasApp
    ensures r.Some? ==> |r.value| == 1 + OverlayCount(src)
    ensures r.Some? ==> r.value[0] == Layer(Visible(src.markings, src.hidden), None)
    ensures r.Some? ==> forall i :: 1 <= i < |r.value| ==> |r.value[i].markings| == 1 && r.value[i].alpha == Some(1.0)
    ensures r.Some? && src.temporary.Some? ==> r.value[1] == Layer([src.temporary.value], Some(1.0))
    ensures r.Some? && src.tempAutoRotate.Some? ==>
      r.value[1 + Count(src.temporary)] == Layer([src.tempAutoRotate.value], Some(1.0))
    ensures r.Some? && src.finishedAutoRotate.Some? ==>
      r.value[1 + Count(src.temporary) + Count(src.tempAutoRotate)] == Layer([src.finishedAutoRotate.value], Some(1.0))
    ensures r.Some? && src.tempMeasurement.Some? ==>
      r.value[1 + Count(src.temporary) + Count(src.tempAutoRotate) + Count(src.finishedAutoRotate)]
        == Layer([src.tempMeasurement.value], Some(1.0))
    ensures r.Some? && src.finishedMeasurement.Some? ==>
      r.value[1 + Count(src.temporary) + Count(src.tempAutoRotate) + Count(src.finishedAutoRotate) + Count(src.tempMeasurement)]
        == Layer([src.finishedMeasurement.value], Some(1.0))
  {
    if !hasViewport || !hasApp then None
    else
      var tops := Tops(src);
      var r := [Layer(Visible(src.markings, src.hidden), None)] + tops;
      assert forall i :: 1 <= i < |r| ==> r[i] == tops[i - 1];
      Some(r)
  }

  /** The committed layer follows the label setting; every layer on top is
      drawn opaque. A hidden type does not hide the temporary marking. */
  lemma LayerAlphas(src: Sources, showLabels: bool)
    ensures var r := Layers(true, true, src).value;
      && MarkingsLayer.Alpha(r[0].alpha, showLabels) == (if showLabels then 1.0 else 0.5)
      && forall i :: 1 <= i < |r| ==> MarkingsLayer.Alpha(r[i].alpha, showLabels) == 1.0
    ensures src.temporary.Some? && src.temporary.value.typeId in src.hidden ==>
      && src.temporary.value !in Layers(true, true, src).value[0].markings
      && src.temporary.value in Layers(true, true, src).value[1].markings
  {
  }

  /** What the committed-markings subscription yields: a new snapshot only
      when the hash differs from the last one seen. */
  datatype Snapshot = Snapshot(markings: seq<Marking>, hash: string)

  function Observe(seen: Snapshot, next: Snapshot): (r: Snapshot)
    ensures seen.hash == next.hash ==> r == seen
    ensures seen.hash != next.hash ==> r == next
  {
    if seen.hash == next.hash then seen else next
  }

  /** The subscription's result after a run of store updates. */
  function ObserveAll(seen: Snapshot, updates: seq<Snapshot>): Snapshot
    decreases |updates|
  {
    if updates == [] then seen else ObserveAll(Observe(seen, updates[0]), updates[1..])
  }

  /** Updates that keep the hash stay unseen, however many there are. */
  lemma {:induction false} HashGatesUpdates(seen: Snapshot, updates: seq<Snapshot>)
    requires forall i :: 0 <= i < |updates| ==> updates[i].hash == seen.hash
    ensures ObserveAll(seen, updates) == seen
  {
    if updates != [] {
      HashGatesUpdates(seen, updates[1..]);
    }
  }

}
