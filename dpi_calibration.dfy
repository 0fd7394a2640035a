/** The DPI calibration tool of the edit window: two clicks span a line
    across the ruler in the image, the line is sampled, its dark valleys
    are one millimetre apart, and the image is rescaled so that a
    millimetre spans `targetDpi / 25.4` pixels. The canvas drawing and the
    rescaled image itself are left out; each `scaleImage` call is recorded
    with its scale factor. */
module DpiCalibration {
  import opened Wrappers
  import opened Geometry
  import opened Peaks

  const DefaultTargetDpi: real := 1000.0
  const MillimetresPerInch: real := 25.4

  datatype MeasurementLine = MeasurementLine(pointA: Point, pointB: Point, peaks: seq<Point>)

  /** A scale factor; `NonFinite` stands for the `Infinity`/`NaN` that
      `targetDpi / 0` gives. */
  datatype ScaleFactor = Finite(factor: real) | NonFinite

  /** The peak positions mapped back onto the line from `a` to `b`
      sampled at `n` points. */
  function Interpolated(a: Point, b: Point, idxs: seq<nat>, n: int): (ps: seq<Point>)
    requires idxs == [] || n > 1
    ensures |ps| == |idxs|
  {
    seq(|idxs|, k requires 0 <= k < |idxs| => PeakPoint(a, b, idxs[k], n))
  }

  /** The point of sample `idx` of `n` on the line from `a` to `b`. */
  function PeakPoint(a: Point, b: Point, idx: nat, n: int): Point
    requires n > 1
  {
    Point(a.x + ((b.x - a.x) * idx as real) / (n - 1) as real,
          a.y + ((b.y - a.y) * idx as real) / (n - 1) as real)
  }

  /** Every interpolated peak lies on the segment from `a` to `b`, at the
      fraction `idx / (n - 1)` of its length. */
  lemma PeakPointsOnSegment(a: Point, b: Point, idxs: seq<nat>, n: int)
    requires n > 1 && forall k :: 0 <= k < |idxs| ==> idxs[k] < n
    ensures var ps := Interpolated(a, b, idxs, n);
      forall k :: 0 <= k < |ps| ==>
        var t := idxs[k] as real / (n - 1) as real;
        && 0.0 <= t <= 1.0
        && ps[k] == Point(a.x + (b.x - a.x) * t, a.y + (b.y - a.y) * t)
  {
    var ps := Interpolated(a, b, idxs, n);
    forall k | 0 <= k < |ps|
      ensures var t := idxs[k] as real / (n - 1) as real;
        && 0.0 <= t <= 1.0
        && ps[k] == Point(a.x + (b.x - a.x) * t, a.y + (b.y - a.y) * t)
    {
      assert ps[k] == PeakPoint(a, b, idxs[k], n);
      PeakPointAt(a, b, idxs[k], n);
    }
  }

  lemma PeakPointAt(a: Point, b: Point, idx: nat, n: int)
    requires n > 1 && idx < n
    ensures var t := idx as real / (n - 1) as real;
      && 0.0 <= t <= 1.0
      && PeakPoint(a, b, idx, n) == Point(a.x + (b.x - a.x) * t, a.y + (b.y - a.y) * t)
  {
    LerpPoint(a, b, idx as real, (n - 1) as real);
  }

  /** One interpolated point, regrouped as a fraction of the segment. */
  lemma LerpPoint(a: Point, b: Point, i: real, d: real)
    requires d > 0.0 && 0.0 <= i <= d
    ensures 0.0 <= i / d <= 1.0
    ensures Point(a.x + ((b.x - a.x) * i) / d, a.y + ((b.y - a.y) * i) / d)
         == Point(a.x + (b.x - a.x) * (i / d), a.y + (b.y - a.y) * (i / d))
  {
    var dx, dy := b.x - a.x, b.y - a.y;
    LerpRegroup(dx, i, d);
    LerpRegroup(dy, i, d);
    assert a.x + (dx * i) / d == a.x + dx * (i / d);
    assert a.y + (dy * i) / d == a.y + dy * (i / d);
  }

  lemma LerpRegroup(delta: real, i: real, d: real)
    requires d > 0.0 && 0.0 <= i <= d
    ensures (delta * i) / d == delta * (i / d) && 0.0 <= i / d <= 1.0
  {
    var q := i / d;
    assert q * d == i;
    assert delta * i == (delta * q) * d;
  }

  /** The mean gap between `k` peaks in closed form: the span from the
      first to the last over the `k - 1` gaps. */
  function MeanGap(peaksIdx: seq<nat>): real
    requires |peaksIdx| >= 2
  {
    (peaksIdx[|peaksIdx| - 1] as real - peaksIdx[0] as real) / (|peaksIdx| - 1) as real
  }

  /** The mean of the consecutive gaps between the peaks, in pixels per
      millimetre: `diffs` summed and divided by their count, which
      telescopes to the closed form. */
  method PixelsPerMm(peaksIdx: seq<nat>) returns (px: real)
    requires |peaksIdx| >= 2
    ensures px == MeanGap(peaksIdx)
  {
    var diffs: seq<real> := [];
    for i := 0 to |peaksIdx| - 1
      invariant |diffs| == i
      invariant Sum(diffs) == peaksIdx[i] as real - peaksIdx[0] as real
    {
      var d := peaksIdx[i + 1] as real - peaksIdx[i] as real;
      assert (diffs + [d])[..|diffs|] == diffs;
      diffs := diffs + [d];
    }
    px := Sum(diffs) / |diffs| as real;
  }

  /** `targetDpi / (pxPerMm * 25.4)`. */
  function ScaleFactorFor(targetDpi: real, pxPerMm: real): ScaleFactor {
    var dpiOriginal := pxPerMm * MillimetresPerInch;
    if dpiOriginal == 0.0 then NonFinite else Finite(targetDpi / dpiOriginal)
  }

  /** For any two or more ascending peaks the factor is finite, restores
      `targetDpi` when multiplied back by the measured DPI, and is positive
      for a positive target. */
  lemma AscendingPeaksScale(targetDpi: real, peaksIdx: seq<nat>)
    requires |peaksIdx| >= 2 && Ascending(peaksIdx)
    ensures var px := MeanGap(peaksIdx);
      && px > 0.0
      && ScaleFactorFor(targetDpi, px).Finite?
      && ScaleFactorFor(targetDpi, px).factor * (px * MillimetresPerInch) == targetDpi
      && (targetDpi > 0.0 ==> ScaleFactorFor(targetDpi, px).factor > 0.0)
  {
    AscendingLess(peaksIdx, 0, |peaksIdx| - 1);
    var px := MeanGap(peaksIdx);
    PositiveQuotient(targetDpi, px * MillimetresPerInch);
  }

  lemma PositiveQuotient(a: real, b: real)
    requires b > 0.0
    ensures a / b * b == a && (a > 0.0 ==> a / b > 0.0)
  {
  }

  /** The sampled intensities along the line from `a` to `b`. */
  function Samples(img: ImageData, a: Point, b: Point): (vs: seq<real>)
    ensures |vs| == Steps(a, b).Floor + 1
  {
    seq(Steps(a, b).Floor + 1, i => SampleAt(img, a, b, i))
  }

  /** What the calibration needs of `findPeaks`: ascending indices into
      the samples, and none for fewer than three samples. */
  lemma PeaksAscending(vs: seq<real>, minDistance: int, sqrt: real -> real)
    ensures var ps := PeaksOf(vs, minDistance, sqrt);
      && Ascending(ps)
      && (ps != [] ==> |vs| >= 3)
      && (forall k :: 0 <= k < |ps| ==> ps[k] < |vs|)
  {
    if |vs| >= 3 {
      var t := Threshold(vs, sqrt);
      var cs := Candidates(vs, t, 0);
      CandidatesShape(vs, t, 0);
      SpacedShape(cs, minDistance);
      var ps := Spaced(cs, minDistance);
      assert ps == PeaksOf(vs, minDistance, sqrt);
      forall k | 0 <= k < |ps|
        ensures ps[k] < |vs|
      {
        assert ps[k] in cs;
      }
    }
  }

  class ImageDpiCalibration {
    var pointA: Option<Point>
    var line: Option<MeasurementLine>
    var isDrawingTempLine: bool
    var mousePos: Option<Point>
    var targetDpi: real
    /** The factors `scaleImage` was called with, oldest first. */
    var scaleRequests: seq<ScaleFactor>

    constructor ()
      ensures pointA.None? && line.None? && !isDrawingTempLine && mousePos.None?
      ensures targetDpi == DefaultTargetDpi && scaleRequests == []
    {
      pointA, line, isDrawingTempLine, mousePos := None, None, false, None;
      targetDpi := DefaultTargetDpi;
      scaleRequests := [];
    }

    method SetTargetDpi(dpi: real)
      modifies this`targetDpi
      ensures targetDpi == dpi
    {
      targetDpi := dpi;
    }

    /** `clear`: forgets the first point and the line; the pointer
        position and the drawing flag are left as they were. */
    method Clear()
      modifies this`pointA, this`line
      ensures pointA.None? && line.None?
    {
      pointA := None;
      line := None;
    }

    /** `handleMouseMove`: only tracked while a first point is set. */
    method MouseMove(p: Point)
      modifies this`mousePos
      ensures old(pointA).None? ==> mousePos == old(mousePos)
      ensures old(pointA).Some? ==> mousePos == Some(p)
    {
      if pointA.None? {
        return;
      }
      mousePos := Some(p);
    }

    /** `processPeaks`: fewer than two peaks give no scaling. */
    method ProcessPeaks(peaksIdx: seq<nat>)
      modifies this`scaleRequests
      ensures |peaksIdx| < 2 ==> scaleRequests == old(scaleRequests)
      ensures |peaksIdx| >= 2 ==>
        scaleRequests == old(scaleRequests) + [ScaleFactorFor(targetDpi,
          MeanGap(peaksIdx))]
    {
      if |peaksIdx| < 2 {
        return;
      }
      var px := PixelsPerMm(peaksIdx);
      scaleRequests := scaleRequests + [ScaleFactorFor(targetDpi, px)];
    }

    /** `click`: the first click stores the point; the second samples the
        line, records it with its peaks, ends the drawing and, with two or
        more peaks, rescales by a finite factor. `img` is the image's pixel
        data and `sqrt` the square root. */
    method Click(p: Point, img: ImageData, sqrt: real -> real)
      modifies this`pointA, this`line, this`isDrawingTempLine, this`mousePos, this`scaleRequests
      ensures old(pointA).None? ==>
        && pointA == Some(p) && isDrawingTempLine
        && line == old(line) && mousePos == old(mousePos) && scaleRequests == old(scaleRequests)
      ensures old(pointA).Some? ==>
        var a := old(pointA).value;
        var vs := Samples(img, a, p);
        var idxs := PeaksOf(vs, DefaultMinDistance, sqrt);
        && pointA.None? && mousePos.None? && !isDrawingTempLine
        && (idxs == [] || |vs| > 1)
        && line == Some(MeasurementLine(a, p, Interpolated(a, p, idxs, |vs|)))
        && (|idxs| < 2 ==> scaleRequests == old(scaleRequests))
        && (|idxs| >= 2 ==>
              && scaleRequests == old(scaleRequests) + [ScaleFactorFor(targetDpi,
                   MeanGap(idxs))]
              && scaleRequests[|scaleRequests| - 1].Finite?)
    {
      if pointA.None? {
        pointA := Some(p);
        isDrawingTempLine := true;
        return;
      }
      var a := pointA.value;
      var values := SampleLine(img, a, p);
      assert values == Samples(img, a, p);
      var peaksIdx := FindPeaks(values, DefaultMinDistance, sqrt);
      PeaksAscending(values, DefaultMinDistance, sqrt);
      var peaks := Interpolated(a, p, peaksIdx, |values|);
      line := Some(MeasurementLine(a, p, peaks));
      pointA := None;
      mousePos := None;
      isDrawingTempLine := false;
      if |peaksIdx| >= 2 {
        assert Ascending(peaksIdx);
        AscendingPeaksScale(targetDpi, peaksIdx);
        ProcessPeaks(peaksIdx);
      }
    }
  }
}
