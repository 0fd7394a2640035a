/** Intensity sampling along a line and the valley ("peak") detector of
    the DPI calibration. Pixel bytes are integers, intensities exact
    reals; `Math.sqrt` is a parameter (its result is only ever compared
    through the threshold). */
module Peaks {
  import opened Geometry

  const DefaultMinDistance: int := 5

  // ---- Statistics --------------------------------------------------------

  /** `reduce((sum, v) => sum + v, 0)`. */
  function Sum(vs: seq<real>): real {
    if vs == [] then 0.0 else Sum(vs[..|vs| - 1]) + vs[|vs| - 1]
  }

  function SumSquaredDeviations(vs: seq<real>, mean: real): real {
    if vs == [] then 0.0
    else SumSquaredDeviations(vs[..|vs| - 1], mean) + (vs[|vs| - 1] - mean) * (vs[|vs| - 1] - mean)
  }

  function Mean(vs: seq<real>): real
    requires |vs| > 0
  {
    Sum(vs) / |vs| as real
  }

  function Variance(vs: seq<real>): real
    requires |vs| > 0
  {
    SumSquaredDeviations(vs, Mean(vs)) / |vs| as real
  }

  /** `mean - stddev * 0.7`, with `stddev = sqrt(variance)`. */
  function Threshold(vs: seq<real>, sqrt: real -> real): real
    requires |vs| > 0
  {
    Mean(vs) - sqrt(Variance(vs)) * 0.7
  }

  // ---- Reference definition of the peaks ----------------------------------

  /** The end of the below-threshold run starting at `s`: the first index
      at or after `s` whose value is not below `t`. */
  function RunEnd(vs: seq<real>, t: real, s: nat): (e: nat)
    requires s <= |vs|
    ensures s <= e <= |vs|
    ensures s < |vs| && vs[s] < t ==> e > s
    ensures forall j :: s <= j < e ==> vs[j] < t
    ensures e < |vs| ==> vs[e] >= t
    decreases |vs| - s
  {
    if s == |vs| || vs[s] >= t then s else RunEnd(vs, t, s + 1)
  }

  /** The first index of the minimum of `vs[s..e]`. */
  function ArgMin(vs: seq<real>, s: nat, e: nat): (m: nat)
    requires s < e <= |vs|
    ensures s <= m < e
    decreases e
  {
    if e == s + 1 then s
    else
      var m := ArgMin(vs, s, e - 1);
      if vs[e - 1] < vs[m] then e - 1 else m
  }

  /** One candidate per maximal below-threshold run starting at or after
      `i`: the run's first minimum, in order. */
  function Candidates(vs: seq<real>, t: real, i: nat): seq<nat>
    requires i <= |vs|
    decreases |vs| - i
  {
    if i == |vs| then []
    else if vs[i] >= t then Candidates(vs, t, i + 1)
    else
      var e := RunEnd(vs, t, i);
      [ArgMin(vs, i, e)] + Candidates(vs, t, e)
  }

  /** Keeps a candidate when it is the first or lies at least `minDistance`
      after the last one kept; a candidate too close is dropped. */
  function Spaced(cs: seq<nat>, minDistance: int): (ps: seq<nat>)
    decreases |cs|
  {
    if cs == [] then []
    else
      var ps := Spaced(cs[..|cs| - 1], minDistance);
      var c := cs[|cs| - 1];
      if ps == [] || c - ps[|ps| - 1] >= minDistance then ps + [c] else ps
  }

  /** What `findPeaks` returns. */
  function PeaksOf(vs: seq<real>, minDistance: int, sqrt: real -> real): seq<nat> {
    if |vs| < 3 then [] else Spaced(Candidates(vs, Threshold(vs, sqrt), 0), minDistance)
  }

  // ---- The detector --------------------------------------------------------

  /** `findPeaks`: one pass keeping the open run's first minimum. */
  method FindPeaks(values: seq<real>, minDistance: int, sqrt: real -> real) returns (peaks: seq<nat>)
    ensures peaks == PeaksOf(values, minDistance, sqrt)
  {
    peaks := [];
    if |values| < 3 {
      return;
    }
    var mean := Sum(values) / |values| as real;
    var variance := SumSquaredDeviations(values, mean) / |values| as real;
    var stddev := sqrt(variance);
    var threshold := mean - stddev * 0.7;
    assert threshold == Threshold(values, sqrt);

    var inPeak := false;
    var peakMinIdx: nat := 0;
    var peakMinVal: real := 255.0;
    ghost var done: seq<nat> := [];
    ghost var s: nat := 0;
    for i := 0 to |values|
      invariant peaks == Spaced(done, minDistance)
      invariant !inPeak ==> Candidates(values, threshold, 0) == done + Candidates(values, threshold, i)
      invariant inPeak ==>
        && s < i
        && (forall j :: s <= j < i ==> values[j] < threshold)
        && peakMinIdx == ArgMin(values, s, i) && peakMinVal == values[peakMinIdx]
        && Candidates(values, threshold, 0) == done + Candidates(values, threshold, s)
    {
      var v := values[i];
      if v < threshold {
        if !inPeak {
          inPeak := true;
          peakMinIdx := i;
          peakMinVal := v;
          s := i;
        } else {
          ArgMinStep(values, s, i);
          if v < peakMinVal {
            peakMinVal := v;
            peakMinIdx := i;
          }
        }
      } else if !inPeak {
        assert Candidates(values, threshold, i) == Candidates(values, threshold, i + 1);
      } else {
        inPeak := false;
        RunEndAt(values, threshold, s, i);
        ClosedRun(values, threshold, done, s, i);
        SpacedAppend(done, peakMinIdx, minDistance);
        done := done + [peakMinIdx];
        if peaks == [] || peakMinIdx - peaks[|peaks| - 1] >= minDistance {
          peaks := peaks + [peakMinIdx];
        }
      }
    }
    if inPeak {
      RunEndAt(values, threshold, s, |values|);
      ClosedRun(values, threshold, done, s, |values|);
      SpacedAppend(done, peakMinIdx, minDistance);
      done := done + [peakMinIdx];
      if peaks == [] || peakMinIdx - peaks[|peaks| - 1] >= minDistance {
        peaks := peaks + [peakMinIdx];
      }
    }
    assert Candidates(values, threshold, |values|) == [];
    assert done == Candidates(values, threshold, 0);
  }

  /** Extending the scanned range by one keeps the first minimum unless
      the new value is strictly smaller. */
  lemma ArgMinStep(vs: seq<real>, s: nat, e: nat)
    requires s < e < |vs|
    ensures ArgMin(vs, s, e + 1) == if vs[e] < vs[ArgMin(vs, s, e)] then e else ArgMin(vs, s, e)
  {
  }

  /** Closing the run `[s, e)`: its minimum joins the candidates found so
      far, and the search resumes after `e`. */
  lemma ClosedRun(vs: seq<real>, t: real, done: seq<nat>, s: nat, e: nat)
    requires s < e <= |vs| && RunEnd(vs, t, s) == e && vs[s] < t
    requires Candidates(vs, t, 0) == done + Candidates(vs, t, s)
    ensures e < |vs| ==> Candidates(vs, t, 0) == done + [ArgMin(vs, s, e)] + Candidates(vs, t, e + 1)
    ensures e == |vs| ==> Candidates(vs, t, 0) == done + [ArgMin(vs, s, e)]
  {
    var m := ArgMin(vs, s, e);
    assert Candidates(vs, t, s) == [m] + Candidates(vs, t, e);
    if e < |vs| {
      assert Candidates(vs, t, e) == Candidates(vs, t, e + 1);
    } else {
      assert Candidates(vs, t, e) == [];
    }
    assert done + ([m] + Candidates(vs, t, e)) == done + [m] + Candidates(vs, t, e);
  }

  lemma SpacedAppend(cs: seq<nat>, c: nat, minDistance: int)
    ensures var ps := Spaced(cs, minDistance);
      Spaced(cs + [c], minDistance) == if ps == [] || c - ps[|ps| - 1] >= minDistance then ps + [c] else ps
  {
    assert (cs + [c])[..|cs|] == cs;
  }

  // ---- Properties of the reference definition ------------------------------

  lemma {:induction false} RunEndAt(vs: seq<real>, t: real, s: nat, e: nat)
    requires s <= e <= |vs|
    requires forall j :: s <= j < e ==> vs[j] < t
    requires e == |vs| || vs[e] >= t
    ensures RunEnd(vs, t, s) == e
    decreases e - s
  {
    if s < e {
      RunEndAt(vs, t, s + 1, e);
    }
  }

  /** `m` is the first position of the minimum of `vs[s..e]`. */
  predicate IsFirstMin(vs: seq<real>, s: nat, e: nat, m: nat)
    requires s <= m < e <= |vs|
  {
    (forall j :: s <= j < e ==> vs[m] <= vs[j]) && (forall j :: s <= j < m ==> vs[j] > vs[m])
  }

  lemma {:induction false} ArgMinIsFirstMin(vs: seq<real>, s: nat, e: nat)
    requires s < e <= |vs|
    ensures IsFirstMin(vs, s, e, ArgMin(vs, s, e))
    decreases e
  {
    if e > s + 1 {
      ArgMinIsFirstMin(vs, s, e - 1);
    }
  }

  /** `[s, e)` is a maximal run of values below `t`. */
  predicate MaximalRun(vs: seq<real>, t: real, s: nat, e: nat) {
    && s < e <= |vs|
    && (forall j :: s <= j < e ==> vs[j] < t)
    && (s == 0 || vs[s - 1] >= t)
    && (e == |vs| || vs[e] >= t)
  }

  /** `c` is the first minimum of some maximal run. */
  ghost predicate FirstMinOfRun(vs: seq<real>, t: real, c: nat) {
    exists s: nat, e: nat :: MaximalRun(vs, t, s, e) && s <= c < e && IsFirstMin(vs, s, e, c)
  }

  /** Some value strictly between positions `p` and `q` is at or above `t`. */
  ghost predicate Separated(vs: seq<real>, t: real, p: int, q: int) {
    exists j :: p < j < q && 0 <= j < |vs| && vs[j] >= t
  }

  predicate Ascending(cs: seq<nat>) {
    forall k :: 0 <= k < |cs| - 1 ==> cs[k] < cs[k + 1]
  }

  /** No run continues across `i`. */
  predicate Boundary(vs: seq<real>, t: real, i: nat)
    requires i <= |vs|
  {
    i == 0 || i == |vs| || vs[i - 1] >= t || vs[i] >= t
  }

  /** Each candidate from `i` is the first minimum of a maximal run. */
  lemma {:induction false} CandidatesAreRunMinima(vs: seq<real>, t: real, i: nat)
    requires i <= |vs| && Boundary(vs, t, i)
    ensures forall c :: c in Candidates(vs, t, i) ==> FirstMinOfRun(vs, t, c)
    decreases |vs| - i
  {
    if i < |vs| {
      if vs[i] >= t {
        assert Candidates(vs, t, i) == Candidates(vs, t, i + 1);
        CandidatesAreRunMinima(vs, t, i + 1);
      } else {
        var e := RunEnd(vs, t, i);
        var m := ArgMin(vs, i, e);
        CandidatesAreRunMinima(vs, t, e);
        ArgMinIsFirstMin(vs, i, e);
        assert MaximalRun(vs, t, i, e);
        assert FirstMinOfRun(vs, t, m);
        assert Candidates(vs, t, i) == [m] + Candidates(vs, t, e);
      }
    }
  }

  /** The candidates from `i` lie at or after `i` and below the threshold,
      ascend, and consecutive ones are separated by a value at or above
      the threshold. */
  lemma {:induction false} CandidatesSeparated(vs: seq<real>, t: real, i: nat)
    requires i <= |vs| && Boundary(vs, t, i)
    ensures var cs := Candidates(vs, t, i);
      && (forall k :: 0 <= k < |cs| ==> i <= cs[k] < |vs| && vs[cs[k]] < t)
      && Ascending(cs)
      && (forall k :: 0 <= k < |cs| - 1 ==> Separated(vs, t, cs[k], cs[k + 1]))
    decreases |vs| - i
  {
    if i < |vs| {
      if vs[i] >= t {
        assert Candidates(vs, t, i) == Candidates(vs, t, i + 1);
        CandidatesSeparated(vs, t, i + 1);
      } else {
        var e := RunEnd(vs, t, i);
        var m := ArgMin(vs, i, e);
        var rest := Candidates(vs, t, e);
        CandidatesSeparated(vs, t, e);
        assert Candidates(vs, t, i) == [m] + rest;
        if e == |vs| {
          assert rest == [];
        }
        ConsCandidate(vs, t, i, m, e, rest);
      }
    }
  }

  /** Putting a run's minimum in front of the candidates after the run. */
  lemma ConsCandidate(vs: seq<real>, t: real, i: nat, m: nat, e: nat, rest: seq<nat>)
    requires i <= m < e <= |vs| && vs[m] < t
    requires |rest| > 0 ==> e < |vs| && vs[e] >= t
    requires forall k :: 0 <= k < |rest| ==> e <= rest[k] < |vs| && vs[rest[k]] < t
    requires Ascending(rest)
    requires forall k :: 0 <= k < |rest| - 1 ==> Separated(vs, t, rest[k], rest[k + 1])
    ensures var cs := [m] + rest;
      && (forall k :: 0 <= k < |cs| ==> i <= cs[k] < |vs| && vs[cs[k]] < t)
      && Ascending(cs)
      && (forall k :: 0 <= k < |cs| - 1 ==> Separated(vs, t, cs[k], cs[k + 1]))
  {
    var cs := [m] + rest;
    if |rest| > 0 {
      assert e <= rest[0] && vs[rest[0]] < t;
      assert Separated(vs, t, m, rest[0]);
    }
    assert forall k :: 1 <= k < |cs| ==> cs[k] == rest[k - 1];
  }

  /** The candidates from `i` ascend, lie below the threshold, are each the
      first minimum of a maximal run, and consecutive ones are separated by
      a value at or above the threshold (so no run gives two). */
  lemma CandidatesShape(vs: seq<real>, t: real, i: nat)
    requires i <= |vs| && Boundary(vs, t, i)
    ensures var cs := Candidates(vs, t, i);
      && (forall k :: 0 <= k < |cs| ==> i <= cs[k] < |vs| && vs[cs[k]] < t && FirstMinOfRun(vs, t, cs[k]))
      && Ascending(cs)
      && (forall k :: 0 <= k < |cs| - 1 ==> Separated(vs, t, cs[k], cs[k + 1]))
  {
    CandidatesAreRunMinima(vs, t, i);
    CandidatesSeparated(vs, t, i);
    var cs := Candidates(vs, t, i);
    assert forall k :: 0 <= k < |cs| ==> cs[k] in cs;
  }

  /** Every maximal run at or after `i` contributes its first minimum. */
  lemma {:induction false} CandidatesComplete(vs: seq<real>, t: real, i: nat, s: nat, e: nat)
    requires MaximalRun(vs, t, s, e) && i <= s && Boundary(vs, t, i)
    ensures ArgMin(vs, s, e) in Candidates(vs, t, i)
    decreases |vs| - i
  {
    if i == s {
      RunEndAt(vs, t, s, e);
    } else if vs[i] >= t {
      CandidatesComplete(vs, t, i + 1, s, e);
    } else {
      var e' := RunEnd(vs, t, i);
      assert e' <= s - 1 by {
        RunEndBound(vs, t, i, s - 1);
      }
      CandidatesComplete(vs, t, e', s, e);
    }
  }

  lemma {:induction false} RunEndBound(vs: seq<real>, t: real, i: nat, k: nat)
    requires i <= k < |vs| && vs[k] >= t
    ensures RunEnd(vs, t, i) <= k
    decreases k - i
  {
    if i < k && vs[i] < t {
      RunEndBound(vs, t, i + 1, k);
    }
  }

  lemma {:induction false} AscendingLess(cs: seq<nat>, a: nat, b: nat)
    requires Ascending(cs) && a < b < |cs|
    ensures cs[a] < cs[b]
    decreases b - a
  {
    if a + 1 < b {
      AscendingLess(cs, a + 1, b);
    }
  }

  /** The kept candidates are a subsequence of the candidates: each is one,
      and the ascending order and the spacing hold. */
  lemma {:induction false} SpacedShape(cs: seq<nat>, minDistance: int)
    requires Ascending(cs)
    ensures var ps := Spaced(cs, minDistance);
      && (forall p :: p in ps ==> p in cs)
      && (forall k :: 0 <= k < |ps| - 1 ==> ps[k] < ps[k + 1] && ps[k + 1] - ps[k] >= minDistance)
      && (|cs| > 0 ==> |ps| > 0 && ps[0] == cs[0])
    decreases |cs|
  {
    if cs != [] {
      var init := cs[..|cs| - 1];
      var c := cs[|cs| - 1];
      assert Ascending(init);
      SpacedShape(init, minDistance);
      var ps := Spaced(init, minDistance);
      forall p | p in ps
        ensures p < c
      {
        var k :| 0 <= k < |init| && init[k] == p;
        AscendingLess(cs, k, |cs| - 1);
      }
      if |init| > 0 {
        assert init[0] == cs[0];
      }
      if ps == [] || c - ps[|ps| - 1] >= minDistance {
        var ps' := ps + [c];
        assert Spaced(cs, minDistance) == ps';
        if ps != [] {
          assert ps[|ps| - 1] in ps;
        }
        assert forall k :: 0 <= k < |ps'| - 1 ==> ps'[k] < ps'[k + 1] && ps'[k + 1] - ps'[k] >= minDistance by {
          forall k | 0 <= k < |ps'| - 1
            ensures ps'[k] < ps'[k + 1] && ps'[k + 1] - ps'[k] >= minDistance
          {
            if k < |ps| - 1 {
              assert ps'[k] == ps[k] && ps'[k + 1] == ps[k + 1];
            }
          }
        }
      }
    }
  }

  /** Between two candidates at sequence positions `k < l` some value is
      at or above the threshold. */
  lemma {:induction false} SeparatedCandidates(vs: seq<real>, t: real, cs: seq<nat>, k: nat, l: nat)
    requires Ascending(cs)
    requires forall k :: 0 <= k < |cs| - 1 ==> Separated(vs, t, cs[k], cs[k + 1])
    requires k < l < |cs|
    ensures Separated(vs, t, cs[k], cs[l])
    decreases l - k
  {
    assert Separated(vs, t, cs[k], cs[k + 1]);
    if l > k + 1 {
      AscendingLess(cs, k + 1, l);
    }
  }

  /** `findPeaks` as specified: no peaks for fewer than three values;
      otherwise ascending indices, each at least `minDistance` after the
      previous one, each below the threshold and the first minimum of a
      maximal below-threshold run, and no two in the same run. */
  lemma PeaksProperties(vs: seq<real>, minDistance: int, sqrt: real -> real)
    ensures |vs| < 3 ==> PeaksOf(vs, minDistance, sqrt) == []
    ensures var ps := PeaksOf(vs, minDistance, sqrt);
      |vs| >= 3 ==>
        && (forall k :: 0 <= k < |ps| - 1 ==> ps[k] < ps[k + 1] && ps[k + 1] - ps[k] >= minDistance)
        && (forall p :: p in ps ==> p < |vs| && vs[p] < Threshold(vs, sqrt) && FirstMinOfRun(vs, Threshold(vs, sqrt), p))
        && (forall p, q :: p in ps && q in ps && p < q ==> Separated(vs, Threshold(vs, sqrt), p, q))
  {
    if |vs| >= 3 {
      var t := Threshold(vs, sqrt);
      var cs := Candidates(vs, t, 0);
      CandidatesShape(vs, t, 0);
      SpacedShape(cs, minDistance);
      var ps := Spaced(cs, minDistance);
      PairsSeparated(vs, t, cs, ps);
      forall p | p in ps
        ensures p < |vs| && vs[p] < t && FirstMinOfRun(vs, t, p)
      {
        var k :| 0 <= k < |cs| && cs[k] == p;
      }
    }
  }

  /** Any two of a selection `ps` of the candidates are separated. */
  lemma PairsSeparated(vs: seq<real>, t: real, cs: seq<nat>, ps: seq<nat>)
    requires Ascending(cs)
    requires forall k :: 0 <= k < |cs| - 1 ==> Separated(vs, t, cs[k], cs[k + 1])
    requires forall p :: p in ps ==> p in cs
    ensures forall p, q :: p in ps && q in ps && p < q ==> Separated(vs, t, p, q)
  {
    forall p, q | p in ps && q in ps && p < q
      ensures Separated(vs, t, p, q)
    {
      var k :| 0 <= k < |cs| && cs[k] == p;
      var l :| 0 <= l < |cs| && cs[l] == q;
      if l < k {
        AscendingLess(cs, l, k);
      }
      SeparatedCandidates(vs, t, cs, k, l);
    }
  }

  /** Completeness: the first minimum of every maximal run is a candidate,
      so a run is lost only to the spacing rule. */
  lemma EveryRunIsACandidate(vs: seq<real>, sqrt: real -> real, s: nat, e: nat)
    requires |vs| >= 3 && MaximalRun(vs, Threshold(vs, sqrt), s, e)
    ensures ArgMin(vs, s, e) in Candidates(vs, Threshold(vs, sqrt), 0)
  {
    CandidatesComplete(vs, Threshold(vs, sqrt), 0, s, e);
  }

  // ---- Sampling a line ------------------------------------------------------

  /** The canvas pixels: RGBA bytes, row-major. */
  datatype ImageData = ImageData(width: int, data: seq<int>)

  /** `Math.round`: halves round up. */
  function Round(x: real): int {
    (x + 0.5).Floor
  }

  /** `imgData.data[idx] ?? 0`. */
  function ByteAt(img: ImageData, idx: int): int {
    if 0 <= idx < |img.data| then img.data[idx] else 0
  }

  function Intensity(img: ImageData, x: int, y: int): real {
    var idx := (y * img.width + x) * 4;
    (ByteAt(img, idx) + ByteAt(img, idx + 1) + ByteAt(img, idx + 2)) as real / 3.0
  }

  function Steps(a: Point, b: Point): real {
    var dx := b.x - a.x;
    var dy := b.y - a.y;
    if Abs(dx) >= Abs(dy) then Abs(dx) else Abs(dy)
  }

  /** `Math.round(from + delta * i / steps)`. */
  function Coord(from: real, delta: real, i: int, steps: real): int
    requires steps != 0.0
  {
    Round(from + delta * i as real / steps)
  }

  /** The i-th sample. For a zero-length line the coordinates are
      `0/0 = NaN`, every byte read is undefined, and the sample is 0. */
  function SampleAt(img: ImageData, a: Point, b: Point, i: int): real {
    var steps := Steps(a, b);
    if steps == 0.0 then 0.0
    else Intensity(img, Coord(a.x, b.x - a.x, i, steps), Coord(a.y, b.y - a.y, i, steps))
  }

  /** `sampleLine`. */
  method SampleLine(img: ImageData, a: Point, b: Point) returns (values: seq<real>)
    ensures |values| == Steps(a, b).Floor + 1
    ensures forall i :: 0 <= i < |values| ==> values[i] == SampleAt(img, a, b, i)
  {
    var dx := b.x - a.x;
    var dy := b.y - a.y;
    var steps := if Abs(dx) >= Abs(dy) then Abs(dx) else Abs(dy);
    assert steps == Steps(a, b);
    values := [];
    var i := 0;
    while i as real <= steps
      invariant 0 <= i <= steps.Floor + 1
      invariant |values| == i
      invariant forall k :: 0 <= k < i ==> values[k] == SampleAt(img, a, b, k)
      decreases steps.Floor + 1 - i
    {
      var v: real;
      if steps == 0.0 {
        v := 0.0;
      } else {
        var x := Coord(a.x, dx, i, steps);
        var y := Coord(a.y, dy, i, steps);
        var idx := (y * img.width + x) * 4;
        var r := ByteAt(img, idx);
        var g := ByteAt(img, idx + 1);
        var bl := ByteAt(img, idx + 2);
        v := (r + g + bl) as real / 3.0;
      }
      values := values + [v];
      i := i + 1;
    }
  }

  /** The samples run from `a` to `b`: the first reads the pixel at `a`
      (rounded), and when the step count is whole the last reads the pixel
      at `b`. */
  lemma SampleEnds(img: ImageData, a: Point, b: Point)
    ensures Steps(a, b) != 0.0 ==> SampleAt(img, a, b, 0) == Intensity(img, Round(a.x), Round(a.y))
    ensures Steps(a, b) != 0.0 && Steps(a, b) == Steps(a, b).Floor as real ==>
      SampleAt(img, a, b, Steps(a, b).Floor) == Intensity(img, Round(b.x), Round(b.y))
  {
    var steps := Steps(a, b);
    if steps != 0.0 {
      CoordAtStart(a.x, b.x - a.x, steps);
      CoordAtStart(a.y, b.y - a.y, steps);
      if steps == steps.Floor as real {
        CoordAtEnd(a.x, b.x - a.x, steps.Floor, steps);
        CoordAtEnd(a.y, b.y - a.y, steps.Floor, steps);
        assert a.x + (b.x - a.x) == b.x && a.y + (b.y - a.y) == b.y;
      }
    }
  }

  lemma CoordAtStart(from: real, delta: real, steps: real)
    requires steps != 0.0
    ensures Coord(from, delta, 0, steps) == Round(from)
  {
    assert delta * 0 as real == 0.0;
  }

  lemma CoordAtEnd(from: real, delta: real, n: int, steps: real)
    requires steps != 0.0 && n as real == steps
    ensures Coord(from, delta, n, steps) == Round(from + delta)
  {
    CoordIs(from, delta, n, steps);
    var x := delta * n as real / steps;
    assert x * steps == delta * steps;
    assert x == delta;
  }

  /** `Coord` with its quotient spelt out, for contexts where `steps` is
      also known under another name. */
  lemma CoordIs(from: real, delta: real, i: int, steps: real)
    requires steps != 0.0
    ensures Coord(from, delta, i, steps) == Round(from + delta * i as real / steps)
  {
  }

  /** With bytes in 0..255 every sample lies in 0..255. */
  lemma SampleRange(img: ImageData, a: Point, b: Point, i: int)
    requires forall k :: 0 <= k < |img.data| ==> 0 <= img.data[k] <= 255
    ensures 0.0 <= SampleAt(img, a, b, i) <= 255.0
  {
  }
}
