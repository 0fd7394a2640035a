/** The per-canvas tracing (free drawing) store: the current paths plus a
    linear undo/redo history kept as two stacks of path lists. Each action
    is a pure state-to-state function; `Store` applies them in place, and
    `Registry` hands out one store per canvas id. */
module TracingStore {
  import opened Geometry

  datatype TracingPath = TracingPath(
    id: string, points: seq<Point>, color: string, opacity: real, brushSize: real)

  type Paths = seq<TracingPath>

  /** `past` and `future` are stacks whose top is the last element. */
  datatype History = History(past: seq<Paths>, future: seq<Paths>)

  datatype State = State(paths: Paths, history: History)

  const Initial: State := State([], History([], []))

  /** Deep copy of a point list, point by point. */
  function ClonePoints(pts: seq<Point>): (r: seq<Point>)
    ensures r == pts
  {
    if pts == [] then [] else [Point(pts[0].x, pts[0].y)] + ClonePoints(pts[1..])
  }

  /** Deep copy of a path list. Under value semantics the copy is equal to
      the original, so later edits to one can never show in the other. */
  function ClonePaths(ps: Paths): (r: Paths)
    ensures r == ps
  {
    if ps == [] then []
    else [ps[0].(points := ClonePoints(ps[0].points))] + ClonePaths(ps[1..])
  }

  function WithPath(s: State, p: TracingPath): (r: State)
    ensures r.paths == s.paths + [p] && r.history == s.history
  {
    s.(paths := s.paths + [p])
  }

  /** Pushes the current paths on `past`, drops `future`, empties the canvas. */
  function Cleared(s: State): (r: State)
    ensures r.paths == [] && r.history.future == []
    ensures r.history.past == s.history.past + [s.paths]
  {
    State([], History(s.history.past + [ClonePaths(s.paths)], []))
  }

  /** Pushes the current paths on `past` and drops `future`; `paths` stays. */
  function Snapshotted(s: State): (r: State)
    ensures r.paths == s.paths && r.history.future == []
    ensures r.history.past == s.history.past + [s.paths]
  {
    s.(history := History(s.history.past + [ClonePaths(s.paths)], []))
  }

  function Undone(s: State): (r: State)
    ensures s.history.past == [] ==> r == s
    ensures s.history.past != [] ==>
      && r.paths == s.history.past[|s.history.past| - 1]
      && r.history.past == s.history.past[..|s.history.past| - 1]
      && r.history.future == s.history.future + [s.paths]
  {
    var past := s.history.past;
    if past == [] then s
    else State(ClonePaths(past[|past| - 1]),
               History(past[..|past| - 1], s.history.future + [ClonePaths(s.paths)]))
  }

  function Redone(s: State): (r: State)
    ensures s.history.future == [] ==> r == s
    ensures s.history.future != [] ==>
      && r.paths == s.history.future[|s.history.future| - 1]
      && r.history.future == s.history.future[..|s.history.future| - 1]
      && r.history.past == s.history.past + [s.paths]
  {
    var future := s.history.future;
    if future == [] then s
    else State(ClonePaths(future[|future| - 1]),
               History(s.history.past + [ClonePaths(s.paths)], future[..|future| - 1]))
  }

  /** Replaces the paths by a copy of `ps` and forgets the whole history. */
  function Loaded(s: State, ps: Paths): (r: State)
    ensures r.paths == ps && r.history == History([], [])
  {
    State(ClonePaths(ps), History([], []))
  }

  /** Undo and redo only move entries between the two stacks: the total
      number of remembered states never changes. */
  lemma UndoRedoConserveHistory(s: State)
    ensures |Undone(s).history.past| + |Undone(s).history.future|
         == |s.history.past| + |s.history.future|
    ensures |Redone(s).history.past| + |Redone(s).history.future|
         == |s.history.past| + |s.history.future|
  {
  }

  /** An undo that had something to undo is cancelled by the next redo. */
  lemma RedoAfterUndo(s: State)
    requires s.history.past != []
    ensures Redone(Undone(s)) == s
  {
    var past := s.history.past;
    assert past[..|past| - 1] + [past[|past| - 1]] == past;
  }

  /** A redo that had something to redo is cancelled by the next undo. */
  lemma UndoAfterRedo(s: State)
    requires s.history.future != []
    ensures Undone(Redone(s)) == s
  {
    var future := s.history.future;
    assert future[..|future| - 1] + [future[|future| - 1]] == future;
  }

  /** A snapshot followed by adding a path is undone, paths and past alike,
      by one undo; the added path's state becomes the only redo entry. */
  lemma UndoAfterSnapshotAndAdd(s: State, p: TracingPath)
    ensures Undone(WithPath(Snapshotted(s), p)).paths == s.paths
    ensures Undone(WithPath(Snapshotted(s), p)).history.past == s.history.past
    ensures Undone(WithPath(Snapshotted(s), p)).history.future == [s.paths + [p]]
  {
    var t := WithPath(Snapshotted(s), p);
    assert t.history.past == s.history.past + [s.paths];
    assert t.history.past[..|t.history.past| - 1] == s.history.past;
  }

  /** Clearing the canvas can be undone. */
  lemma UndoAfterClear(s: State)
    ensures Undone(Cleared(s)).paths == s.paths
    ensures Undone(Cleared(s)).history.past == s.history.past
  {
    var t := Cleared(s);
    assert t.history.past[..|t.history.past| - 1] == s.history.past;
  }

  /** After a load there is nothing to undo or redo. */
  lemma LoadForgetsHistory(s: State, ps: Paths)
    ensures Undone(Loaded(s, ps)) == Loaded(s, ps)
    ensures Redone(Loaded(s, ps)) == Loaded(s, ps)
  {
  }

  /** One canvas's tracing store; `set` and `getState` of the source. */
  class Store {
    var paths: Paths
    var past: seq<Paths>
    var future: seq<Paths>

    function Current(): State
      reads this
    {
      State(paths, History(past, future))
    }

    constructor ()
      ensures Current() == Initial
    {
      paths, past, future := [], [], [];
    }

    /** Replaces the whole state (the external `set` edit). */
    method Set(s: State)
      modifies this
      ensures Current() == s
    {
      paths, past, future := s.paths, s.history.past, s.history.future;
    }

    method Reset()
      modifies this
      ensures Current() == Initial
    {
      Set(Initial);
    }

    method AddPath(p: TracingPath)
      modifies this
      ensures Current() == WithPath(old(Current()), p)
    {
      paths := paths + [p];
    }

    method ClearPaths()
      modifies this
      ensures Current() == Cleared(old(Current()))
    {
      past := past + [ClonePaths(paths)];
      future := [];
      paths := [];
    }

    method Snapshot()
      modifies this
      ensures Current() == Snapshotted(old(Current()))
    {
      past := past + [ClonePaths(paths)];
      future := [];
    }

    method Undo()
      modifies this
      ensures Current() == Undone(old(Current()))
    {
      if past != [] {
        var previous := past[|past| - 1];
        future := future + [ClonePaths(paths)];
        past := past[..|past| - 1];
        paths := ClonePaths(previous);
      }
    }

    method Redo()
      modifies this
      ensures Current() == Redone(old(Current()))
    {
      if future != [] {
        var next := future[|future| - 1];
        past := past + [ClonePaths(paths)];
        future := future[..|future| - 1];
        paths := ClonePaths(next);
      }
    }

    method LoadPaths(ps: Paths)
      modifies this
      ensures Current() == Loaded(old(Current()), ps)
    {
      paths := ClonePaths(ps);
      past, future := [], [];
    }
  }

  /** The module-level `stores` map: one store per stringified canvas id. */
  class Registry {
    var stores: map<string, Store>

    constructor ()
      ensures stores == map[]
    {
      stores := map[];
    }

    /** `TracingStore(id)`: the existing store for `key`, or a fresh one in
        the initial state, remembered under `key`. */
    method Get(key: string) returns (s: Store)
      modifies this
      ensures key in stores && stores[key] == s
      ensures key in old(stores) ==> s == old(stores)[key] && stores == old(stores)
      ensures key !in old(stores) ==>
        fresh(s) && s.Current() == Initial && stores == old(stores)[key := s]
    {
      if key in stores {
        s := stores[key];
      } else {
        s := new Store();
        stores := stores[key := s];
      }
    }
  }
}
