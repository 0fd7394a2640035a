/** Converting SourceAFIS minutiae to ray markings: one ray per minutia, in
    order, at the minutia's position, pointing in its direction, typed as
    a ridge ending for kind "ending" and as a bifurcation otherwise. The
    caller's label source is `labelAt`: the label returned by its i-th
    call. */
module SourceafisConvert {
  import opened Wrappers
  import opened Geometry
  import opened Markings

  const RidgeEndingId: string := "e6cbde52-5a18-4236-8287-7a1daf941ba9"
  const BifurcationId: string := "f47c4b97-2d62-4959-aa21-edebfa7a756a"

  /** One minutia of the tool's output; `kind` is its `type` field. */
  datatype Minutia = Minutia(x: real, y: real, direction: real, kind: string)

  /** `new RayMarking(label, origin, typeId, angleRad)`, ids left undefined. */
  function Ray(labelNo: int, origin: Point, typeId: string, angleRad: real): (m: Marking)
    ensures m.MarkingClass() == RayClass && m.MarkingClass().Name() == "ray"
  {
    Marking(labelNo, origin, typeId, None, RayShape(angleRad))
  }

  function ConvertedTypeId(kind: string): (id: string)
    ensures id == RidgeEndingId <==> kind == "ending"
    ensures id == RidgeEndingId || id == BifurcationId
  {
    if kind == "ending" then RidgeEndingId else BifurcationId
  }

  function ConvertFrom(ms: seq<Minutia>, labelAt: nat -> int, calls: nat): (r: seq<Marking>)
    ensures |r| == |ms|
    ensures forall i :: 0 <= i < |ms| ==>
      r[i] == Ray(labelAt(calls + i), Point(ms[i].x, ms[i].y), ConvertedTypeId(ms[i].kind), ms[i].direction)
  {
    if ms == [] then []
    else
      var last := |ms| - 1;
      ConvertFrom(ms[..last], labelAt, calls)
        + [Ray(labelAt(calls + last), Point(ms[last].x, ms[last].y), ConvertedTypeId(ms[last].kind), ms[last].direction)]
  }

  /** `convertSourceafisToRayMarkings`; missing `minutiae` is `None`. */
  function Convert(minutiae: Option<seq<Minutia>>, labelAt: nat -> int): (r: seq<Marking>)
    ensures minutiae.None? ==> r == []
    ensures minutiae.Some? ==> |r| == |minutiae.value|
    ensures minutiae.Some? ==> forall i :: 0 <= i < |r| ==>
      && r[i].origin == Point(minutiae.value[i].x, minutiae.value[i].y)
      && r[i].shape == RayShape(minutiae.value[i].direction)
      && r[i].labelNo == labelAt(i)
      && (r[i].typeId == RidgeEndingId <==> minutiae.value[i].kind == "ending")
  {
    if minutiae.None? || |minutiae.value| == 0 then [] else ConvertFrom(minutiae.value, labelAt, 0)
  }

  /** Converting a concatenation converts each part, the second with the
      label source advanced past the first part's calls. */
  lemma {:induction false} ConvertConcat(a: seq<Minutia>, b: seq<Minutia>, labelAt: nat -> int, calls: nat)
    ensures ConvertFrom(a + b, labelAt, calls) == ConvertFrom(a, labelAt, calls) + ConvertFrom(b, labelAt, calls + |a|)
  {
    var l := ConvertFrom(a + b, labelAt, calls);
    var r := ConvertFrom(a, labelAt, calls) + ConvertFrom(b, labelAt, calls + |a|);
    forall i | 0 <= i < |l|
      ensures l[i] == r[i]
    {
      if i < |a| {
        assert (a + b)[i] == a[i];
      } else {
        assert (a + b)[i] == b[i - |a|];
        assert calls + i == calls + |a| + (i - |a|);
      }
    }
  }
}
