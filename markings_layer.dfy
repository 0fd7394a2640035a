/** One markings layer: every redraw clears the graphics object and draws
    the given markings in list order, each with its resolved type, skipping
    those whose type cannot be resolved, and then sets the layer's alpha.
    The measurement tools' own lines resolve to a synthetic type. */
module MarkingsLayer {
  import opened Wrappers
  import opened Geometry
  import opened Markings
  import MarkingTypes
  import opened MarkingRender

  const MeasurementToolTypeId: string := "__measurement__"

  const MeasurementToolType: MarkingType := MarkingType(
    MeasurementToolTypeId, "measurement-tool", Some("Measurement"), MeasurementClass,
    "#ffff00", "#ffff00", 2.0, "fingerprint")

  /** The synthetic type answers for "__measurement__", before any user
      type of that id; every other id is looked up among the types. */
  function ResolveType(typeId: string, types: seq<MarkingType>): (r: Option<MarkingType>)
    ensures typeId == MeasurementToolTypeId ==> r == Some(MeasurementToolType)
    ensures typeId != MeasurementToolTypeId ==> r == MarkingTypes.FindType(types, typeId)
    ensures r.Some? <==> typeId == MeasurementToolTypeId || MarkingTypes.HasTypeId(types, typeId)
    ensures r.Some? ==> r.value.id == typeId
  {
    if typeId == MeasurementToolTypeId then Some(MeasurementToolType)
    else MarkingTypes.FindType(types, typeId)
  }

  /** `(alpha ?? showMarkingLabels) ? 1 : 0.5`: a given alpha decides by its
      truthiness (zero is falsy), otherwise the label setting decides. */
  function Alpha(alpha: Option<real>, showLabels: bool): (a: real)
    ensures a == 1.0 || a == 0.5
    ensures alpha.Some? ==> (a == 1.0 <==> alpha.value != 0.0)
    ensures alpha.None? ==> (a == 1.0 <==> showLabels)
  {
    if (if alpha.Some? then alpha.value != 0.0 else showLabels) then 1.0 else 0.5
  }

  /** Everything a redraw reads besides the markings: the types, the
      selected label, the blink state and the clock, and the view. */
  datatype Context = Context(
    types: seq<MarkingType>, selected: Option<int>, blinking: Option<Blink>, now: int, view: View)

  /** The drawing of one marking, if its type resolves. */
  function DrawingOf(m: Marking, ctx: Context): (r: Option<Drawing>)
    ensures r.Some? <==> ResolveType(m.typeId, ctx.types).Some?
    ensures r.Some? ==> r.value.labelNo == m.labelNo && r.value.typeId == m.typeId
    ensures r.Some? ==>
      r.value.emphasized == Emphasize(ctx.blinking, m.labelNo, ctx.selected == Some(m.labelNo), ctx.now)
  {
    if ResolveType(m.typeId, ctx.types).None? then None
    else Some(DrawMarking(Emphasize(ctx.blinking, m.labelNo, ctx.selected == Some(m.labelNo), ctx.now), m, ctx.view))
  }

  function Drawings(ms: seq<Marking>, ctx: Context): seq<Drawing> {
    if ms == [] then []
    else
      var rest := Drawings(ms[1..], ctx);
      match DrawingOf(ms[0], ctx)
      case None => rest
      case Some(d) => [d] + rest
  }

  lemma {:induction false} DrawingsAppend(ms: seq<Marking>, m: Marking, ctx: Context)
    ensures Drawings(ms + [m], ctx) ==
      Drawings(ms, ctx) + (if DrawingOf(m, ctx).Some? then [DrawingOf(m, ctx).value] else [])
  {
    if ms == [] {
      assert [m][1..] == [];
    } else {
      assert (ms + [m])[1..] == ms[1..] + [m];
      DrawingsAppend(ms[1..], m, ctx);
    }
  }

  /** Drawing a concatenation draws each part in turn: an unresolved
      marking is skipped without affecting the markings after it. */
  lemma {:induction false} DrawingsConcat(a: seq<Marking>, b: seq<Marking>, ctx: Context)
    ensures Drawings(a + b, ctx) == Drawings(a, ctx) + Drawings(b, ctx)
  {
    if a == [] {
      assert a + b == b;
    } else {
      assert (a + b)[1..] == a[1..] + b;
      DrawingsConcat(a[1..], b, ctx);
    }
  }

  lemma SkipsUnresolved(a: seq<Marking>, m: Marking, b: seq<Marking>, ctx: Context)
    requires ResolveType(m.typeId, ctx.types).None?
    ensures Drawings(a + [m] + b, ctx) == Drawings(a, ctx) + Drawings(b, ctx)
  {
    DrawingsConcat(a + [m], b, ctx);
    DrawingsAppend(a, m, ctx);
  }

  /** When every type resolves, the i-th drawing is the i-th marking's. */
  lemma {:induction false} DrawnInListOrder(ms: seq<Marking>, ctx: Context)
    requires forall i :: 0 <= i < |ms| ==> ResolveType(ms[i].typeId, ctx.types).Some?
    ensures |Drawings(ms, ctx)| == |ms|
    ensures forall i :: 0 <= i < |ms| ==> Drawings(ms, ctx)[i] == DrawingOf(ms[i], ctx).value
  {
    if ms != [] {
      DrawnInListOrder(ms[1..], ctx);
      assert forall i :: 1 <= i < |ms| ==> ms[i] == ms[1..][i - 1];
    }
  }

  /** With no blink running, a marking is drawn emphasised exactly when its
      label is the selected one. */
  lemma {:induction false} SelectedIffLabelEqual(ms: seq<Marking>, ctx: Context)
    requires !IsActive(ctx.blinking, ctx.now)
    ensures forall d :: d in Drawings(ms, ctx) ==> (d.emphasized <==> ctx.selected == Some(d.labelNo))
  {
    if ms != [] {
      SelectedIffLabelEqual(ms[1..], ctx);
    }
  }

  /** The graphics object a layer draws on. */
  class Graphics {
    var drawings: seq<Drawing>
    var alpha: real

    constructor ()
      ensures drawings == [] && alpha == 1.0
    {
      drawings, alpha := [], 1.0;
    }
  }

  /** `drawMarkings`: a full repaint, which is why its result does not
      depend on what was drawn before. */
  method DrawMarkings(g: Graphics, markings: seq<Marking>, ctx: Context, alpha: Option<real>, showLabels: bool)
    modifies g
    ensures g.drawings == Drawings(markings, ctx)
    ensures g.alpha == Alpha(alpha, showLabels)
  {
    g.drawings := [];
    var i := 0;
    while i < |markings|
      invariant 0 <= i <= |markings|
      invariant g.drawings == Drawings(markings[..i], ctx)
    {
      DrawingsAppend(markings[..i], markings[i], ctx);
      assert markings[..i + 1] == markings[..i] + [markings[i]];
      var t := ResolveType(markings[i].typeId, ctx.types);
      if t.Some? {
        var e := Emphasize(ctx.blinking, markings[i].labelNo, ctx.selected == Some(markings[i].labelNo), ctx.now);
        g.drawings := g.drawings + [DrawMarking(e, markings[i], ctx.view)];
      }
      i := i + 1;
    }
    assert markings[..i] == markings;
    g.alpha := if (if alpha.Some? then alpha.value != 0.0 else showLabels) then 1.0 else 0.5;
  }
}
