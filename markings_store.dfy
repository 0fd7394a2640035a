/** The per-canvas markings store: committed markings, the hash that
    changes with them, the selected label, the marking under construction
    and the canvas calibration. The hash of the initial state is drawn
    once (`crypto.randomUUID()` at module load) and is an input here.
    The store's action layer (`addOne`, the label generator,
    `setTemporaryMarking`, `updateTemporaryMarking`) is not part of this
    model; `CanvasStore` gives it the contracts its callers rely on:
    append, a monotone label counter, replace and merge. */
module MarkingsStore {
  import opened Wrappers
  import opened Geometry
  import opened Markings

  datatype State = State(
    markingsHash: string, markings: seq<Marking>, selectedMarkingLabel: Option<int>,
    temporaryMarking: Option<Marking>, calibration: Calibration)

  function InitialState(hash: string): (s: State)
    ensures s.markings == [] && s.selectedMarkingLabel.None? && s.temporaryMarking.None?
    ensures s.calibration == Calibration(1.0, "px") && s.markingsHash == hash
  {
    State(hash, [], None, None, DefaultCalibration)
  }

  /** Merges `origin` and/or `endpoint` into a marking that has them. */
  function WithOrigin(m: Marking, p: Point): Marking { m.(origin := p) }

  function WithEndpoint(m: Marking, p: Point): (r: Marking)
    ensures r.labelNo == m.labelNo && r.origin == m.origin && r.typeId == m.typeId && r.ids == m.ids
    ensures r.MarkingClass() == m.MarkingClass()
  {
    match m.shape
    case LineSegmentShape(_) => m.(shape := LineSegmentShape(p))
    case MeasurementShape(_) => m.(shape := MeasurementShape(p))
    case BoundingBoxShape(_) => m.(shape := BoundingBoxShape(p))
    case _ => m
  }

  class CanvasStore {
    const canvasId: CanvasId
    const initialHash: string
    var markingsHash: string
    var markings: seq<Marking>
    var selectedMarkingLabel: Option<int>
    var temporaryMarking: Option<Marking>
    var calibration: Calibration
    /** Next label the label generator hands out. */
    var nextLabel: int
    /** Whether the state's `set` member is still the store's own setter.
        `reset` merges `INITIAL_STATE` into the state, and its `set` is the
        no-op `() => {}`, so from then on `set` changes nothing. */
    var setLive: bool

    function Current(): State
      reads this
    {
      State(markingsHash, markings, selectedMarkingLabel, temporaryMarking, calibration)
    }

    constructor (id: CanvasId, hash: string)
      ensures canvasId == id && initialHash == hash && Current() == InitialState(hash)
      ensures nextLabel == 1 && setLive
    {
      canvasId, initialHash := id, hash;
      markingsHash, markings, selectedMarkingLabel, temporaryMarking, calibration :=
        hash, [], None, None, DefaultCalibration;
      nextLabel := 1;
      setLive := true;
    }

    /** `reset`, as written: back to the very state every store started in,
        with the no-op `set` of `INITIAL_STATE` installed. */
    method Reset()
      modifies this
      ensures Current() == InitialState(initialHash) && nextLabel == old(nextLabel)
      ensures !setLive
    {
      markingsHash, markings, selectedMarkingLabel, temporaryMarking, calibration :=
        initialHash, [], None, None, DefaultCalibration;
      setLive := false;
    }

    /** `reset` as evidently intended: the initial data, with the store's
        own setter kept. */
    method ResetKeepingSetter()
      modifies this
      ensures Current() == InitialState(initialHash) && nextLabel == old(nextLabel)
      ensures setLive == old(setLive)
    {
      markingsHash, markings, selectedMarkingLabel, temporaryMarking, calibration :=
        initialHash, [], None, None, DefaultCalibration;
    }

    /** The state's `set` member: the store's setter replaces the state; the
        no-op left by `reset` changes nothing. */
    method Set(s: State)
      modifies this
      ensures old(setLive) ==> Current() == s
      ensures !old(setLive) ==> Current() == old(Current())
      ensures nextLabel == old(nextLabel) && setLive == old(setLive)
    {
      if setLive {
        markingsHash, markings, selectedMarkingLabel, temporaryMarking, calibration :=
          s.markingsHash, s.markings, s.selectedMarkingLabel, s.temporaryMarking, s.calibration;
      }
    }

    /** `addOne`: appends and publishes a new hash (given). */
    method AddOne(m: Marking, newHash: string)
      modifies this`markings, this`markingsHash
      ensures markings == old(markings) + [m] && markingsHash == newHash
    {
      markings := markings + [m];
      markingsHash := newHash;
    }

    /** `labelGenerator.getLabel()`: each call yields a new, larger label. */
    method GetLabel() returns (l: int)
      modifies this`nextLabel
      ensures l == old(nextLabel) && nextLabel == old(nextLabel) + 1
    {
      l := nextLabel;
      nextLabel := nextLabel + 1;
    }

    method SetTemporaryMarking(m: Option<Marking>)
      modifies this`temporaryMarking
      ensures temporaryMarking == m
    {
      temporaryMarking := m;
    }

    method UpdateTemporaryOrigin(p: Point)
      modifies this`temporaryMarking
      ensures old(temporaryMarking).None? ==> temporaryMarking.None?
      ensures old(temporaryMarking).Some? ==> temporaryMarking == Some(WithOrigin(old(temporaryMarking).value, p))
    {
      if temporaryMarking.Some? {
        temporaryMarking := Some(WithOrigin(temporaryMarking.value, p));
      }
    }

    method UpdateTemporaryEndpoint(p: Point)
      modifies this`temporaryMarking
      ensures old(temporaryMarking).None? ==> temporaryMarking.None?
      ensures old(temporaryMarking).Some? ==> temporaryMarking == Some(WithEndpoint(old(temporaryMarking).value, p))
    {
      if temporaryMarking.Some? {
        temporaryMarking := Some(WithEndpoint(temporaryMarking.value, p));
      }
    }
  }

  /** As written, a `set` after `reset` is lost: the store stays at its
      initial state whatever is set. */
  method ResetThenSet(store: CanvasStore, s: State)
    modifies store
    ensures store.Current() == InitialState(store.initialHash)
  {
    store.Reset();
    store.Set(s);
  }

  /** With the setter kept, a `set` after the reset takes effect on a store
      whose setter was live, as on every fresh store. */
  method ResetKeepingSetterThenSet(store: CanvasStore, s: State)
    requires store.setLive
    modifies store
    ensures store.Current() == s && store.setLive
  {
    store.ResetKeepingSetter();
    store.Set(s);
  }

  /** `createStore` for each canvas id: two independent stores that start
      from the same initial state, hash included. */
  class Stores {
    const left: CanvasStore
    const right: CanvasStore

    constructor (hash: string)
      ensures fresh(left) && fresh(right) && left != right
      ensures left.canvasId == Left && right.canvasId == Right
      ensures left.Current() == right.Current() == InitialState(hash)
      ensures left.setLive && right.setLive
    {
      left := new CanvasStore(Left, hash);
      right := new CanvasStore(Right, hash);
    }

    function Get(id: CanvasId): (s: CanvasStore)
      ensures s == if id == Left then left else right
    {
      if id == Left then left else right
    }
  }
}
