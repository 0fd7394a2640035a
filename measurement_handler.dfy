/** The marking-mode handler for a measurement marking of a chosen type.
    Creating it draws a fresh label and sets the canvas's temporary
    marking to a zero-length measurement at the pointer; pointer moves
    then update the temporary marking's origin (stage one) or endpoint
    (stage two); the release ending stage one publishes the ray position;
    a press in stage two commits the temporary marking and asks the
    owning plugin to clean up, which is counted here since the plugin is
    not part of this model. */
module MeasurementHandler {
  import opened Wrappers
  import opened Geometry
  import opened Markings
  import MeasurementMarking
  import MarkingsStore
  import CachedViewport

  datatype Stage = One | Two

  class Handler {
    const store: MarkingsStore.CanvasStore
    const cached: CachedViewport.Store
    const typeId: string
    /** The label drawn when the handler was created. */
    ghost const labelNo: int
    var stage: Stage
    var cleanups: nat

    /** The temporary marking is this handler's measurement, whose label
        the generator will not hand out again. */
    ghost predicate Valid()
      reads this, store
    {
      && store.temporaryMarking.Some?
      && store.temporaryMarking.value.shape.MeasurementShape?
      && store.temporaryMarking.value.labelNo == labelNo
      && store.temporaryMarking.value.typeId == typeId
      && labelNo < store.nextLabel
    }

    /** `initFirstStage`. */
    constructor (s: MarkingsStore.CanvasStore, cv: CachedViewport.Store, t: string, pos: Point)
      modifies s`nextLabel, s`temporaryMarking
      ensures store == s && cached == cv && typeId == t && stage == One && cleanups == 0
      ensures s.nextLabel == old(s.nextLabel) + 1
      ensures s.temporaryMarking == Some(MeasurementMarking.New(old(s.nextLabel), pos, t, pos, None))
      ensures Valid()
    {
      store, cached, typeId := s, cv, t;
      stage, cleanups := One, 0;
      var l := s.GetLabel();
      labelNo := l;
      new;
      s.SetTemporaryMarking(Some(MeasurementMarking.New(l, pos, t, pos, None)));
    }

    method MouseMove(pos: Point)
      requires Valid()
      modifies store`temporaryMarking
      ensures Valid()
      ensures var m := old(store.temporaryMarking).value;
        stage == One ==> store.temporaryMarking == Some(m.(origin := pos))
      ensures var m := old(store.temporaryMarking).value;
        stage == Two ==> store.temporaryMarking == Some(m.(shape := MeasurementShape(pos)))
    {
      if stage == One {
        store.UpdateTemporaryOrigin(pos);
      } else {
        store.UpdateTemporaryEndpoint(pos);
      }
    }

    /** `handleLMBUp`: the ray is published at the normalised pointer
        position, before the rotation adjustment. */
    method LeftButtonUp(normalized: Point)
      requires Valid()
      modifies this`stage, cached`rayPosition
      ensures Valid()
      ensures old(stage) == One ==> stage == Two && cached.rayPosition == Some(normalized)
      ensures old(stage) == Two ==> stage == Two && cached.rayPosition == old(cached.rayPosition)
    {
      if stage == One {
        stage := Two;
        cached.SetRayPosition(normalized);
      }
    }

    /** `handleLMBDown`: in stage two, commits the temporary marking. */
    method LeftButtonDown(newHash: string)
      requires Valid()
      modifies store`markings, store`markingsHash, this`cleanups
      ensures Valid()
      ensures old(stage) == Two ==>
        && store.markings == old(store.markings) + [store.temporaryMarking.value]
        && store.markingsHash == newHash && cleanups == old(cleanups) + 1
      ensures old(stage) == One ==>
        && store.markings == old(store.markings) && store.markingsHash == old(store.markingsHash)
        && cleanups == old(cleanups)
    {
      if stage == Two {
        store.AddOne(store.temporaryMarking.value, newHash);
        cleanups := cleanups + 1;
      }
    }
  }

  /** The whole gesture: create at `p0`, move to `a`, release, move to
      `b`, press. The committed marking has the drawn label and the chosen
      type and runs from `a` to `b`; the label generator has advanced, so
      the label is not handed out again. */
  method Gesture(s: MarkingsStore.CanvasStore, cv: CachedViewport.Store, t: string,
                 p0: Point, a: Point, b: Point, up: Point, newHash: string)
      returns (h: Handler)
    modifies s, cv
    ensures h.store == s
    ensures s.markings == old(s.markings) + [MeasurementMarking.New(old(s.nextLabel), a, t, b, None)]
    ensures s.nextLabel == old(s.nextLabel) + 1 && cv.rayPosition == Some(up) && h.cleanups == 1
  {
    h := new Handler(s, cv, t, p0);
    h.MouseMove(a);
    h.LeftButtonUp(up);
    h.MouseMove(b);
    h.LeftButtonDown(newHash);
  }
}
