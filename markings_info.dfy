/** The markings information table of one canvas: this canvas's markings
    together with the opposite canvas's markings whose labels do not occur
    here, sorted by label, each shown whole when it shares an id with this
    canvas and as a bare label otherwise. */
module MarkingsInfo {
  import opened Wrappers
  import opened Geometry
  import opened Markings

  /** A table row: a whole marking or the placeholder `{ label }`. */
  datatype Entry = Whole(marking: Marking) | Placeholder(labelNo: int)
  {
    function Label(): int {
      match this
      case Whole(m) => m.labelNo
      case Placeholder(l) => l
    }
  }

  function Labels(ms: seq<Marking>): (r: seq<int>)
    ensures |r| == |ms|
    ensures forall i :: 0 <= i < |ms| ==> r[i] == ms[i].labelNo
  {
    if ms == [] then [] else [ms[0].labelNo] + Labels(ms[1..])
  }

  /** The opposite canvas's markings whose label is not among `labels`. */
  function NewLabels(opposite: seq<Marking>, labels: seq<int>): (r: seq<Marking>)
    ensures |r| <= |opposite|
    ensures forall m :: m in r <==> m in opposite && m.labelNo !in labels
  {
    if opposite == [] then []
    else if opposite[0].labelNo in labels then NewLabels(opposite[1..], labels)
    else [opposite[0]] + NewLabels(opposite[1..], labels)
  }

  /** `new Set(markings.flatMap(m => m.ids))`, restricted to the defined
      ids (an undefined `ids` adds a value no id array contains). */
  function AllIds(ms: seq<Marking>): (r: set<string>)
    ensures forall i, id :: 0 <= i < |ms| && ms[i].ids.Some? && id in ms[i].ids.value ==> id in r
    ensures forall id :: id in r ==> exists i :: 0 <= i < |ms| && ms[i].ids.Some? && id in ms[i].ids.value
  {
    if ms == [] then {}
    else (if ms[0].ids.Some? then set id | id in ms[0].ids.value else {}) + AllIds(ms[1..])
  }

  // ---- Stable sort by label ---------------------------------------------

  predicate SortedByLabel(s: seq<Marking>) {
    forall i, j :: 0 <= i < j < |s| ==> s[i].labelNo <= s[j].labelNo
  }

  /** Inserts `m` before the first element whose label is not below its own. */
  function Insert(m: Marking, s: seq<Marking>): (r: seq<Marking>)
    ensures |r| == |s| + 1
  {
    if s == [] || m.labelNo <= s[0].labelNo then [m] + s
    else [s[0]] + Insert(m, s[1..])
  }

  /** `sort((a, b) => a.label - b.label)`; the sort is stable, and so is
      inserting each element in front of its equals. */
  function SortByLabel(s: seq<Marking>): (r: seq<Marking>)
    ensures |r| == |s|
  {
    if s == [] then [] else Insert(s[0], SortByLabel(s[1..]))
  }

  lemma {:induction false} InsertKeepsElements(m: Marking, s: seq<Marking>)
    ensures multiset(Insert(m, s)) == multiset(s) + multiset{m}
  {
    if s == [] || m.labelNo <= s[0].labelNo {
    } else {
      InsertKeepsElements(m, s[1..]);
      assert s == [s[0]] + s[1..];
    }
  }

  lemma {:induction false} InsertKeepsSorted(m: Marking, s: seq<Marking>)
    requires SortedByLabel(s)
    ensures SortedByLabel(Insert(m, s))
  {
    if s == [] || m.labelNo <= s[0].labelNo {
    } else {
      var r := Insert(m, s[1..]);
      assert forall k :: 0 <= k < |s[1..]| ==> s[1..][k] == s[k + 1];
      InsertKeepsSorted(m, s[1..]);
      InsertKeepsBound(m, s[1..], s[0].labelNo);
      var t := [s[0]] + r;
      assert Insert(m, s) == t;
      forall i, j | 0 <= i < j < |t|
        ensures t[i].labelNo <= t[j].labelNo
      {
        assert t[j] == r[j - 1];
        if i > 0 {
          assert t[i] == r[i - 1];
        } else {
          assert t[0] == s[0];
        }
      }
    }
  }

  /** A lower bound on the labels of `s` and of `m` bounds the result. */
  lemma {:induction false} InsertKeepsBound(m: Marking, s: seq<Marking>, b: int)
    requires b <= m.labelNo && forall k :: 0 <= k < |s| ==> b <= s[k].labelNo
    ensures forall k :: 0 <= k < |Insert(m, s)| ==> b <= Insert(m, s)[k].labelNo
  {
    if s != [] && m.labelNo > s[0].labelNo {
      assert forall k :: 0 <= k < |s[1..]| ==> s[1..][k] == s[k + 1];
      InsertKeepsBound(m, s[1..], b);
      var r := Insert(m, s[1..]);
      var t := [s[0]] + r;
      assert Insert(m, s) == t;
      forall k | 0 <= k < |t|
        ensures b <= t[k].labelNo
      {
        if k > 0 {
          assert t[k] == r[k - 1];
        } else {
          assert t[0] == s[0];
        }
      }
    }
  }

  lemma {:induction false} SortByLabelCorrect(s: seq<Marking>)
    ensures SortedByLabel(SortByLabel(s))
    ensures multiset(SortByLabel(s)) == multiset(s)
  {
    if s != [] {
      SortByLabelCorrect(s[1..]);
      InsertKeepsSorted(s[0], SortByLabel(s[1..]));
      InsertKeepsElements(s[0], SortByLabel(s[1..]));
      assert s == [s[0]] + s[1..];
    }
  }

  // ---- The merge ---------------------------------------------------------

  /** The rows before the placeholder step. */
  function Combined(own: seq<Marking>, opposite: seq<Marking>): seq<Marking> {
    SortByLabel(own + NewLabels(opposite, Labels(own)))
  }

  predicate SharesId(m: Marking, ids: set<string>)
    requires m.ids.Some?
  {
    exists id :: id in m.ids.value && id in ids
  }

  function ToEntries(ms: seq<Marking>, ids: set<string>): (r: seq<Entry>)
    requires forall i :: 0 <= i < |ms| ==> ms[i].ids.Some?
    ensures |r| == |ms|
    ensures forall i :: 0 <= i < |ms| ==> r[i] == if SharesId(ms[i], ids) then Whole(ms[i]) else Placeholder(ms[i].labelNo)
  {
    if ms == [] then []
    else
      [if SharesId(ms[0], ids) then Whole(ms[0]) else Placeholder(ms[0].labelNo)] + ToEntries(ms[1..], ids)
  }

  /** `fillMissingLabels`: the rows are passed through unchanged. */
  function FillMissingLabels(rows: seq<Entry>): (r: seq<Entry>)
    ensures r == rows
  {
    rows
  }

  /** The table rows; `None` when some row's `ids` is undefined, on which
      `ids.some(...)` throws. */
  function Merge(own: seq<Marking>, opposite: seq<Marking>): (r: Option<seq<Entry>>)
    ensures var c := Combined(own, opposite);
      r.Some? <==> forall i :: 0 <= i < |c| ==> c[i].ids.Some?
  {
    var c := Combined(own, opposite);
    if forall i :: 0 <= i < |c| ==> c[i].ids.Some? then Some(FillMissingLabels(ToEntries(c, AllIds(own))))
    else None
  }

  /** The table holds one row per own marking and per opposite marking
      with a new label, sorted by label. */
  lemma MergeShape(own: seq<Marking>, opposite: seq<Marking>)
    requires Merge(own, opposite).Some?
    ensures var r := Merge(own, opposite).value;
      && |r| == |own| + |NewLabels(opposite, Labels(own))|
      && forall i, j :: 0 <= i < j < |r| ==> r[i].Label() <= r[j].Label()
  {
    var c := Combined(own, opposite);
    SortByLabelCorrect(own + NewLabels(opposite, Labels(own)));
    var r := Merge(own, opposite).value;
    assert forall i :: 0 <= i < |r| ==> r[i].Label() == c[i].labelNo;
  }

  /** The rows are exactly the own markings and the opposite markings with
      new labels, each once: none is lost and none is invented. */
  lemma MergeElements(own: seq<Marking>, opposite: seq<Marking>)
    ensures multiset(Combined(own, opposite)) == multiset(own) + multiset(NewLabels(opposite, Labels(own)))
    ensures forall m :: m in Combined(own, opposite) ==> m in own || (m in opposite && m.labelNo !in Labels(own))
  {
    SortByLabelCorrect(own + NewLabels(opposite, Labels(own)));
    forall m | m in Combined(own, opposite)
      ensures m in own || (m in opposite && m.labelNo !in Labels(own))
    {
      assert m in multiset(Combined(own, opposite));
      assert m in multiset(own + NewLabels(opposite, Labels(own)));
    }
  }

  /** An own marking with a defined id is shown whole; a row is shown
      whole exactly when it shares an id with this canvas. */
  lemma OwnMarkingsStayWhole(own: seq<Marking>, opposite: seq<Marking>, i: nat)
    requires Merge(own, opposite).Some?
    requires i < |Combined(own, opposite)|
    ensures var c := Combined(own, opposite); var r := Merge(own, opposite).value;
      && (r[i].Whole? <==> SharesId(c[i], AllIds(own)))
      && (c[i] in own && |c[i].ids.value| > 0 ==> r[i] == Whole(c[i]))
  {
    var c := Combined(own, opposite);
    if c[i] in own && |c[i].ids.value| > 0 {
      var k :| 0 <= k < |own| && own[k] == c[i];
      var id := c[i].ids.value[0];
      assert id in c[i].ids.value;
      assert id in AllIds(own);
    }
  }

  /** The calibration repair: a missing calibration is written back as one
      pixel per pixel; a present one is kept. */
  function RepairedCalibration(c: Option<Calibration>): (r: Calibration)
    ensures c.None? ==> r == Calibration(1.0, "px")
    ensures c.Some? ==> r == c.value
  {
    if c.None? then Calibration(1.0, "px") else c.value
  }
}
