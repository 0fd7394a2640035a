/** Pointer handlers of the tracing overlay: they build free-hand and
    line paths in the canvas's tracing store. `currentPathId` is the path
    being dragged, `lastActivePathId` the path a new line segment may
    continue from. The fresh path id (drawn from a random number and the
    clock in the source) is passed in, and so is the pointer position
    already mapped into viewport-local coordinates. */
module TracingOverlay {
  import opened Wrappers
  import opened Geometry
  import opened DashboardToolbarState
  import opened TracingStore

  /** Where a new line-mode path starts: at the last point of the last path
      when that path is the one last started and was drawn with the current
      color, opacity and brush size; otherwise at the click. */
  function LineStart(paths: Paths, lastActive: Option<string>, t: TracingSettings, click: Point): Point {
    if paths != [] then
      var last := paths[|paths| - 1];
      if Some(last.id) == lastActive && last.color == t.color && last.opacity == t.opacity
         && last.brushSize == t.brushSize && last.points != []
      then last.points[|last.points| - 1]
      else click
    else click
  }

  /** The path a left or middle pointer-down adds. */
  function NewPath(paths: Paths, lastActive: Option<string>, t: TracingSettings, click: Point, id: string): (p: TracingPath)
    ensures p.id == id && p.color == t.color && p.opacity == t.opacity && p.brushSize == t.brushSize
    ensures t.mode == Free ==> p.points == [click]
    ensures t.mode == Line ==> |p.points| == 2 && p.points[1] == click
  {
    var pts := if t.mode == Line then [LineStart(paths, lastActive, t, click), click] else [click];
    TracingPath(id, pts, t.color, t.opacity, t.brushSize)
  }

  /** A line path continues the previous one exactly when the continuation
      conditions hold; otherwise it starts as a zero-length segment. */
  lemma LineContinuation(paths: Paths, lastActive: Option<string>, t: TracingSettings, click: Point, id: string)
    requires t.mode == Line
    ensures var p := NewPath(paths, lastActive, t, click, id);
      if paths != [] && Some(paths[|paths| - 1].id) == lastActive
         && paths[|paths| - 1].color == t.color && paths[|paths| - 1].opacity == t.opacity
         && paths[|paths| - 1].brushSize == t.brushSize && paths[|paths| - 1].points != []
      then p.points[0] == paths[|paths| - 1].points[|paths[|paths| - 1].points| - 1]
      else p.points == [click, click]
  {
  }

  /** The point edit of a pointer-move on one path: in line mode the last
      point is overwritten when there are at least two; in free mode the
      point is appended. */
  function MovePath(p: TracingPath, point: Point, mode: TracingMode): TracingPath {
    if mode == Line then
      (if |p.points| > 1 then p.(points := p.points[|p.points| - 1 := point]) else p)
    else p.(points := p.points + [point])
  }

  /** Applies `MovePath` to the first path with the given id, if any. */
  function MoveFirst(paths: Paths, id: string, point: Point, mode: TracingMode): (r: Paths)
    ensures |r| == |paths|
  {
    if paths == [] then []
    else if paths[0].id == id then [MovePath(paths[0], point, mode)] + paths[1..]
    else [paths[0]] + MoveFirst(paths[1..], id, point, mode)
  }

  /** Index of the first path with the given id. */
  function FindIndex(paths: Paths, id: string): (r: Option<nat>)
    ensures r.Some? ==>
      && r.value < |paths| && paths[r.value].id == id
      && forall j :: 0 <= j < r.value ==> paths[j].id != id
    ensures r.None? ==> forall j :: 0 <= j < |paths| ==> paths[j].id != id
  {
    if paths == [] then None
    else if paths[0].id == id then Some(0)
    else match FindIndex(paths[1..], id)
      case None => None
      case Some(k) => Some(k + 1)
  }

  /** Pointer-move edits exactly the first path carrying the id and leaves
      every other path as it was; with no such path nothing changes. */
  lemma {:induction false} MoveFirstSpec(paths: Paths, id: string, point: Point, mode: TracingMode)
    ensures FindIndex(paths, id).None? ==> MoveFirst(paths, id, point, mode) == paths
    ensures FindIndex(paths, id).Some? ==>
      var k := FindIndex(paths, id).value;
      MoveFirst(paths, id, point, mode) == paths[k := MovePath(paths[k], point, mode)]
  {
    if paths != [] && paths[0].id != id {
      MoveFirstSpec(paths[1..], id, point, mode);
      assert paths == [paths[0]] + paths[1..];
    }
  }

  /** The point lists a move produces: same length with the last point
      replaced (line mode, at least two points), or one point longer. */
  lemma MovePathPoints(p: TracingPath, point: Point, mode: TracingMode)
    ensures var q := MovePath(p, point, mode);
      && q.(points := p.points) == p
      && (mode == Free ==> q.points == p.points + [point])
      && (mode == Line && |p.points| > 1 ==>
            |q.points| == |p.points| && q.points[|q.points| - 1] == point
            && q.points[..|q.points| - 1] == p.points[..|p.points| - 1])
      && (mode == Line && |p.points| <= 1 ==> q == p)
  {
  }

  class Overlay {
    var currentPathId: Option<string>
    var lastActivePathId: Option<string>
    /** Whether the viewport's drag plugin is paused. */
    var dragPaused: bool

    constructor ()
      ensures currentPathId == None && lastActivePathId == None && !dragPaused
    {
      currentPathId, lastActivePathId, dragPaused := None, None, false;
    }

    /** `onPointerDown`. */
    method PointerDown(store: Store, t: TracingSettings, hasViewport: bool,
                       button: int, click: Point, newId: string)
      modifies this, store
      ensures !t.isEnabled || !hasViewport ==>
        && currentPathId == old(currentPathId) && lastActivePathId == old(lastActivePathId)
        && dragPaused == old(dragPaused) && store.Current() == old(store.Current())
      ensures t.isEnabled && hasViewport && button == 2 ==>
        && lastActivePathId == None && currentPathId == old(currentPathId)
        && dragPaused == old(dragPaused) && store.Current() == old(store.Current())
      ensures t.isEnabled && hasViewport && button != 2 ==>
        && dragPaused && currentPathId == Some(newId) && lastActivePathId == Some(newId)
        && store.Current() == WithPath(Snapshotted(old(store.Current())),
             NewPath(old(store.paths), old(lastActivePathId), t, click, newId))
    {
      if !t.isEnabled || !hasViewport {
        return;
      }
      if button == 2 {
        lastActivePathId := None;
        return;
      }
      dragPaused := true;
      var path := NewPath(store.paths, lastActivePathId, t, click, newId);
      currentPathId := Some(newId);
      lastActivePathId := Some(newId);
      store.Snapshot();
      store.AddPath(path);
    }

    /** `onPointerMove`: edits the current path's points through the
        store's `set`, without touching the history. */
    method PointerMove(store: Store, t: TracingSettings, hasViewport: bool, point: Point)
      modifies store
      ensures (!t.isEnabled || currentPathId.None? || currentPathId == Some("") || !hasViewport) ==>
        store.Current() == old(store.Current())
      ensures t.isEnabled && currentPathId.Some? && currentPathId != Some("") && hasViewport ==>
        store.Current() == old(store.Current()).(paths :=
          MoveFirst(old(store.paths), currentPathId.value, point, t.mode))
    {
      // an empty id is falsy in the source and stops the handler too
      if !t.isEnabled || currentPathId.None? || currentPathId == Some("") || !hasViewport {
        return;
      }
      var s := store.Current();
      store.Set(s.(paths := MoveFirst(s.paths, currentPathId.value, point, t.mode)));
    }

    /** `onPointerUp`: resumes dragging and ends the current path, keeping
        the continuation reference. */
    method PointerUp(t: TracingSettings, hasViewport: bool)
      modifies this
      ensures !t.isEnabled || !hasViewport ==>
        currentPathId == old(currentPathId) && dragPaused == old(dragPaused)
      ensures t.isEnabled && hasViewport ==> currentPathId == None && !dragPaused
      ensures lastActivePathId == old(lastActivePathId)
    {
      if !t.isEnabled || !hasViewport {
        return;
      }
      dragPaused := false;
      currentPathId := None;
    }
  }

  /** The snapshot taken before each new path makes the next undo remove
      exactly that path and restore the history before the click. */
  lemma PointerDownIsUndoable(s: State, lastActive: Option<string>, t: TracingSettings, click: Point, id: string)
    ensures var after := WithPath(Snapshotted(s), NewPath(s.paths, lastActive, t, click, id));
      Undone(after).paths == s.paths && Undone(after).history.past == s.history.past
  {
    UndoAfterSnapshotAndAdd(s, NewPath(s.paths, lastActive, t, click, id));
  }
}
