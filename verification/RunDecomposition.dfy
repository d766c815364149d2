/**
 The run decomposition behind both evidence loops. A track labels each analysed frame with at most one
 target and says where continuity breaks; a run is a maximal stretch of one label without a break.
 */
module RunDecomposition {
  import opened Common

  datatype Track = Track(labels: seq<Option<string>>, breaks: seq<bool>, times: seq<real>) {
    predicate Valid() {
      |labels| == |breaks| == |times|
    }
  }

  datatype Run = Run(start: nat, end: nat, name: string)

  /** Frame `i` carries on the run of frame `i - 1`. */
  predicate Continues(t: Track, i: nat)
    requires i < |t.labels| == |t.breaks|
  {
    i > 0 && !t.breaks[i] && t.labels[i].Some? && t.labels[i - 1] == t.labels[i]
  }

  // ----- The declarative decomposition -----

  /** `[a..b]` is a stretch of `name` without a break inside. */
  ghost predicate Stretch(t: Track, a: nat, b: nat, name: string)
    requires t.Valid()
  {
    && a <= b < |t.labels|
    && (forall i :: a <= i <= b ==> t.labels[i] == Some(name))
    && (forall i :: a < i <= b ==> !t.breaks[i])
  }

  /** A stretch within the first `n` frames that cannot be extended on either side. */
  ghost predicate IsRun(t: Track, n: nat, r: Run)
    requires t.Valid() && n <= |t.labels|
  {
    && r.end < n
    && Stretch(t, r.start, r.end, r.name)
    && (r.start == 0 || t.breaks[r.start] || t.labels[r.start - 1] != Some(r.name))
    && (r.end + 1 == n || t.breaks[r.end + 1] || t.labels[r.end + 1] != Some(r.name))
  }

  /** The runs of the first `n` frames, in order. */
  function RunsOf(t: Track, n: nat): (rs: seq<Run>)
    requires |t.labels| == |t.breaks| && n <= |t.labels|
    ensures n > 0 && t.labels[n - 1].Some? ==>
      rs != [] && rs[|rs| - 1].end == n - 1 && rs[|rs| - 1].name == t.labels[n - 1].value
  {
    if n == 0 then []
    else
      var rs := RunsOf(t, n - 1);
      if t.labels[n - 1].None? then rs
      else if Continues(t, n - 1) then rs[..|rs| - 1] + [rs[|rs| - 1].(end := n - 1)]
      else rs + [Run(n - 1, n - 1, t.labels[n - 1].value)]
  }

  /** How frame `n` changes the decomposition. */
  lemma RunsStep(t: Track, n: nat)
    requires t.Valid() && n < |t.labels|
    ensures var rs := RunsOf(t, n);
      if Continues(t, n) then
        rs != [] && rs[|rs| - 1].end == n - 1 && RunsOf(t, n + 1) == rs[..|rs| - 1] + [rs[|rs| - 1].(end := n)]
      else if t.labels[n].Some? then RunsOf(t, n + 1) == rs + [Run(n, n, t.labels[n].value)]
      else RunsOf(t, n + 1) == rs
  {
  }

  /** A run stays a run when the next frame does not continue it. */
  lemma RunKept(t: Track, n: nat, r: Run)
    requires t.Valid() && n < |t.labels| && IsRun(t, n, r)
    requires r.end < n - 1 || !Continues(t, n)
    ensures IsRun(t, n + 1, r)
  {
  }

  lemma RunGrows(t: Track, n: nat, r: Run)
    requires t.Valid() && 0 < n < |t.labels| && IsRun(t, n, r)
    requires r.end == n - 1 && Continues(t, n)
    ensures IsRun(t, n + 1, r.(end := n))
  {
  }

  ghost predicate InOrder(rs: seq<Run>) {
    forall i, j :: 0 <= i < j < |rs| ==> rs[i].end < rs[j].start
  }

  ghost predicate AllRuns(t: Track, n: nat, rs: seq<Run>)
    requires t.Valid() && n <= |t.labels|
  {
    InOrder(rs) && forall i :: 0 <= i < |rs| ==> IsRun(t, n, rs[i])
  }

  lemma RunSpan(t: Track, n: nat, rs: seq<Run>)
    requires t.Valid() && n <= |t.labels| && AllRuns(t, n, rs)
    ensures forall i :: 0 <= i < |rs| ==> rs[i].start <= rs[i].end < n
    ensures forall i :: 0 <= i < |rs| - 1 ==> rs[i].end < rs[|rs| - 1].start
  {
  }

  lemma KeepAll(t: Track, n: nat, rs: seq<Run>)
    requires t.Valid() && n < |t.labels| && AllRuns(t, n, rs) && !Continues(t, n)
    ensures AllRuns(t, n + 1, rs)
  {
    hide IsRun;
    forall i | 0 <= i < |rs| ensures IsRun(t, n + 1, rs[i]) {
      RunKept(t, n, rs[i]);
    }
  }

  lemma GrowLast(t: Track, n: nat, rs: seq<Run>)
    requires t.Valid() && n < |t.labels| && AllRuns(t, n, rs) && Continues(t, n)
    requires rs != [] && rs[|rs| - 1].end == n - 1
    ensures AllRuns(t, n + 1, rs[..|rs| - 1] + [rs[|rs| - 1].(end := n)])
  {
    RunSpan(t, n, rs);
    hide IsRun;
    var last := |rs| - 1;
    RunGrows(t, n, rs[last]);
    forall i | 0 <= i < last ensures IsRun(t, n + 1, rs[i]) {
      RunKept(t, n, rs[i]);
    }
  }

  lemma AppendSingle(t: Track, n: nat, rs: seq<Run>)
    requires t.Valid() && n < |t.labels| && AllRuns(t, n, rs) && !Continues(t, n) && t.labels[n].Some?
    ensures AllRuns(t, n + 1, rs + [Run(n, n, t.labels[n].value)])
  {
    RunSpan(t, n, rs);
    KeepAll(t, n, rs);
    assert IsRun(t, n + 1, Run(n, n, t.labels[n].value));
    hide IsRun;
  }

  lemma NoRuns(t: Track)
    requires t.Valid()
    ensures AllRuns(t, 0, RunsOf(t, 0))
  {
  }

  lemma {:induction false} RunsAreRuns(t: Track, n: nat)
    requires t.Valid() && n <= |t.labels|
    ensures AllRuns(t, n, RunsOf(t, n))
  {
    if n == 0 {
      NoRuns(t);
    } else {
      RunsStep(t, n - 1);
    }
    hide AllRuns, IsRun, RunsOf;
    if n > 0 {
      RunsAreRuns(t, n - 1);
      if Continues(t, n - 1) {
        GrowLast(t, n - 1, RunsOf(t, n - 1));
      } else if t.labels[n - 1].Some? {
        AppendSingle(t, n - 1, RunsOf(t, n - 1));
      } else {
        KeepAll(t, n - 1, RunsOf(t, n - 1));
      }
    }
  }

  /** A run that reaches the newest frame either started there or grew there. */
  lemma NewestRun(t: Track, n: nat, r: Run)
    requires t.Valid() && n < |t.labels| && IsRun(t, n + 1, r)
    ensures r.end == n ==> t.labels[n] == Some(r.name)
    ensures r.end == n && r.start < n ==> Continues(t, n) && IsRun(t, n, r.(end := n - 1))
    ensures r.end == n && r.start == n ==> !Continues(t, n)
    ensures r.end < n ==> IsRun(t, n, r) && !(r.end == n - 1 && Continues(t, n))
  {
  }

  lemma MemberStep(t: Track, n: nat, r: Run)
    requires t.Valid() && n < |t.labels|
    requires r in RunsOf(t, n) && r.end < n
    ensures if r.end == n - 1 && Continues(t, n) then r.(end := n) in RunsOf(t, n + 1) else r in RunsOf(t, n + 1)
  {
    RunsStep(t, n);
    RunsAreRuns(t, n);
    RunSpan(t, n, RunsOf(t, n));
    hide RunsOf, AllRuns, IsRun;
    var rs, all := RunsOf(t, n), RunsOf(t, n + 1);
    var k :| 0 <= k < |rs| && rs[k] == r;
    if Continues(t, n) {
      assert k < |rs| - 1 ==> rs[k].end < rs[|rs| - 1].start <= rs[|rs| - 1].end;
      if k == |rs| - 1 {
        assert all[k] == r.(end := n);
      } else {
        assert all[k] == r;
      }
    } else {
      assert all[k] == r;
    }
  }

  lemma MemberNew(t: Track, n: nat)
    requires t.Valid() && n < |t.labels| && t.labels[n].Some? && !Continues(t, n)
    ensures Run(n, n, t.labels[n].value) in RunsOf(t, n + 1)
  {
    assert RunsOf(t, n + 1)[|RunsOf(t, n)|] == Run(n, n, t.labels[n].value);
  }

  lemma RunWithin(t: Track, n: nat, r: Run)
    requires t.Valid() && n <= |t.labels| && IsRun(t, n, r)
    ensures r.start <= r.end < n
  {
  }

  lemma {:induction false} RunsAreAll(t: Track, n: nat, r: Run)
    requires t.Valid() && n <= |t.labels| && IsRun(t, n, r)
    ensures r in RunsOf(t, n)
    decreases n
  {
    hide IsRun, RunsOf, Continues;
    RunWithin(t, n, r);
    NewestRun(t, n - 1, r);
    if r.end < n - 1 {
      RunsAreAll(t, n - 1, r);
      MemberStep(t, n - 1, r);
    } else if r.start < r.end {
      RunsAreAll(t, n - 1, r.(end := n - 2));
      MemberStep(t, n - 1, r.(end := n - 2));
    } else {
      MemberNew(t, n - 1);
    }
  }

  /** `RunsOf` lists exactly the maximal same-label stretches inside continuous segments, in order. */
  lemma RunsExact(t: Track)
    requires t.Valid()
    ensures forall r :: r in RunsOf(t, |t.labels|) <==> IsRun(t, |t.labels|, r)
    ensures InOrder(RunsOf(t, |t.labels|))
  {
    RunsAreRuns(t, |t.labels|);
    forall r | IsRun(t, |t.labels|, r) ensures r in RunsOf(t, |t.labels|) {
      RunsAreAll(t, |t.labels|, r);
    }
  }

  /** Every labelled frame lies in a run of its label. */
  lemma {:induction false} RunCovers(t: Track, n: nat, i: nat) returns (r: Run)
    requires t.Valid() && i < n <= |t.labels| && t.labels[i].Some?
    ensures r in RunsOf(t, n) && r.start <= i <= r.end < n && r.name == t.labels[i].value
  {
    hide Continues;
    if i == n - 1 {
      var rs := RunsOf(t, n);
      r := rs[|rs| - 1];
      RunBounds(t, n);
    } else {
      r := RunCovers(t, n - 1, i);
      MemberStep(t, n - 1, r);
      if r.end == n - 2 && Continues(t, n - 1) {
        r := r.(end := n - 1);
      }
    }
  }

  // ----- Accumulators, and what they add up to -----

  function Lookup<V>(m: map<string, V>, key: string, default: V): V {
    if key in m then m[key] else default
  }

  /** Time covered by the runs of one label: the sum of `time(end) - time(start)`. */
  function Dwell(t: Track, rs: seq<Run>, name: string): real
    requires forall r :: r in rs ==> r.start < |t.times| && r.end < |t.times|
  {
    if rs == [] then 0.0
    else
      var r := rs[|rs| - 1];
      Dwell(t, rs[..|rs| - 1], name) + if r.name == name then t.times[r.end] - t.times[r.start] else 0.0
  }

  function CountRuns(rs: seq<Run>, name: string): nat {
    if rs == [] then 0
    else CountRuns(rs[..|rs| - 1], name) + if rs[|rs| - 1].name == name then 1 else 0
  }

  /** The labels met since the last break among the first `n` frames. */
  function Seen(t: Track, n: nat): set<string>
    requires |t.labels| == |t.breaks| && n <= |t.labels|
  {
    if n == 0 then {}
    else
      (if t.breaks[n - 1] then {} else Seen(t, n - 1))
      + (if t.labels[n - 1].Some? then {t.labels[n - 1].value} else {})
  }

  /** Frame `i` comes back to a label already met in its segment. */
  predicate Returns(t: Track, i: nat, name: string)
    requires |t.labels| == |t.breaks| && i < |t.labels|
  {
    i > 0 && !t.breaks[i] && t.labels[i] == Some(name) && t.labels[i - 1] != Some(name) && name in Seen(t, i)
  }

  function ReturnCount(t: Track, n: nat, name: string): nat
    requires |t.labels| == |t.breaks| && n <= |t.labels|
  {
    if n == 0 then 0 else ReturnCount(t, n - 1, name) + if Returns(t, n - 1, name) then 1 else 0
  }

  /** The number of the continuous segment that frame `i` belongs to. */
  function Segment(t: Track, i: nat): nat
    requires i < |t.breaks|
  {
    if i == 0 then 0 else Segment(t, i - 1) + if t.breaks[i] then 1 else 0
  }

  /** The continuous segments in which a label occurs. */
  function SegmentsWith(t: Track, n: nat, name: string): set<nat>
    requires |t.labels| == |t.breaks| && n <= |t.labels|
  {
    set i | 0 <= i < n && t.labels[i] == Some(name) :: Segment(t, i)
  }

  lemma {:induction false} SegmentMonotone(t: Track, i: nat, j: nat)
    requires i <= j < |t.breaks|
    ensures Segment(t, i) <= Segment(t, j)
    ensures i < j && t.breaks[j] ==> Segment(t, i) < Segment(t, j)
  {
    if i < j {
      SegmentMonotone(t, i, j - 1);
    }
  }

  lemma {:induction false} SeenIsSegment(t: Track, n: nat, name: string)
    requires t.Valid() && 0 < n <= |t.labels|
    ensures name in Seen(t, n) <==> Segment(t, n - 1) in SegmentsWith(t, n, name)
  {
    var i := n - 1;
    if t.labels[i] != Some(name) {
      if i == 0 {
      } else if t.breaks[i] {
        forall j | 0 <= j < n && t.labels[j] == Some(name) ensures Segment(t, j) != Segment(t, i) {
          SegmentMonotone(t, j, i);
        }
      } else {
        SeenIsSegment(t, i, name);
      }
    }
  }

  /** One new frame adds to exactly one side of the count. */
  lemma SegmentsStep(t: Track, i: nat, name: string)
    requires t.Valid() && i < |t.labels|
    ensures t.labels[i] != Some(name) ==> SegmentsWith(t, i + 1, name) == SegmentsWith(t, i, name)
    ensures t.labels[i] == Some(name) && Segment(t, i) in SegmentsWith(t, i, name) ==>
      SegmentsWith(t, i + 1, name) == SegmentsWith(t, i, name)
    ensures t.labels[i] == Some(name) && Segment(t, i) !in SegmentsWith(t, i, name) ==>
      |SegmentsWith(t, i + 1, name)| == |SegmentsWith(t, i, name)| + 1
  {
    var before, after := SegmentsWith(t, i, name), SegmentsWith(t, i + 1, name);
    if t.labels[i] == Some(name) {
      assert after == before + {Segment(t, i)};
    } else {
      assert after == before;
    }
  }

  /** Frame `i` stays in a segment where the label was met before. */
  lemma MetBefore(t: Track, i: nat, name: string)
    requires t.Valid() && i < |t.labels|
    ensures Segment(t, i) in SegmentsWith(t, i, name) <==> i > 0 && !t.breaks[i] && name in Seen(t, i)
  {
    if i > 0 {
      if t.breaks[i] {
        forall j | 0 <= j < i && t.labels[j] == Some(name) ensures Segment(t, j) != Segment(t, i) {
          SegmentMonotone(t, j, i);
        }
      } else {
        SeenIsSegment(t, i, name);
      }
    }
  }

  lemma CountExtended(rs: seq<Run>, last: Run, name: string)
    requires rs != [] && last.name == rs[|rs| - 1].name
    ensures CountRuns(rs[..|rs| - 1] + [last], name) == CountRuns(rs, name)
  {
    assert (rs[..|rs| - 1] + [last])[..|rs| - 1] == rs[..|rs| - 1];
  }

  lemma CountAppended(rs: seq<Run>, last: Run, name: string)
    ensures CountRuns(rs + [last], name) == CountRuns(rs, name) + if last.name == name then 1 else 0
  {
    assert (rs + [last])[..|rs|] == rs;
  }

  /** Windows of a label = returns to it + continuous segments that contain it. */
  lemma {:induction false} RunsReturnsSegments(t: Track, n: nat, name: string)
    requires t.Valid() && n <= |t.labels|
    ensures CountRuns(RunsOf(t, n), name) == ReturnCount(t, n, name) + |SegmentsWith(t, n, name)|
  {
    if n > 0 {
      var i, rs := n - 1, RunsOf(t, n - 1);
      RunsReturnsSegments(t, i, name);
      RunsStep(t, i);
      hide RunsOf, SegmentsWith;
      SegmentsStep(t, i, name);
      MetBefore(t, i, name);
      if t.labels[i].Some? {
        if Continues(t, i) {
          CountExtended(rs, rs[|rs| - 1].(end := i), name);
        } else {
          CountAppended(rs, Run(i, i, t.labels[i].value), name);
        }
      }
    }
  }

  lemma RunBounds(t: Track, n: nat)
    requires t.Valid() && n <= |t.labels|
    ensures forall r :: r in RunsOf(t, n) ==> r.start <= r.end < n
  {
    RunsAreRuns(t, n);
    RunSpan(t, n, RunsOf(t, n));
  }

  /** One frame's contribution to the dwell of its own label. */
  lemma DwellStep(t: Track, i: nat, name: string)
    requires t.Valid() && i < |t.labels|
    requires forall r :: r in RunsOf(t, i) ==> r.start <= r.end < i
    requires forall r :: r in RunsOf(t, i + 1) ==> r.start <= r.end <= i
    ensures Dwell(t, RunsOf(t, i + 1), name) == Dwell(t, RunsOf(t, i), name)
      + if Continues(t, i) && t.labels[i] == Some(name) then t.times[i] - t.times[i - 1] else 0.0
  {
    var rs, all := RunsOf(t, i), RunsOf(t, i + 1);
    RunsStep(t, i);
    hide RunsOf;
    if Continues(t, i) {
      assert all[..|all| - 1] == rs[..|rs| - 1];
    } else if t.labels[i].Some? {
      assert all[..|rs|] == rs;
    }
  }

  /** A label met since the last break was met on an earlier frame of the same segment, and conversely. */
  lemma {:induction false} SeenMeans(t: Track, n: nat, name: string)
    requires t.Valid() && n <= |t.labels|
    ensures name in Seen(t, n) <==> MetSinceBreak(t, n, name)
  {
    if n > 0 {
      SeenMeans(t, n - 1, name);
      if MetSinceBreak(t, n, name) {
        var j :| 0 <= j < n && t.labels[j] == Some(name) && forall k :: j < k < n ==> !t.breaks[k];
        assert j < n - 1 ==> MetSinceBreak(t, n - 1, name);
      }
      if MetSinceBreak(t, n - 1, name) && !t.breaks[n - 1] {
        var j :| 0 <= j < n - 1 && t.labels[j] == Some(name) && forall k :: j < k < n - 1 ==> !t.breaks[k];
        assert MetSinceBreak(t, n, name);
      }
    }
  }

  ghost predicate MetSinceBreak(t: Track, n: nat, name: string)
    requires t.Valid() && n <= |t.labels|
  {
    exists j :: 0 <= j < n && t.labels[j] == Some(name) && forall k :: j < k < n ==> !t.breaks[k]
  }

  /** Dwell of a name over the runs of the first `n` frames. */
  function DwellUpTo(t: Track, n: nat, name: string): real
    requires t.Valid() && n <= |t.labels|
  {
    RunBounds(t, n);
    Dwell(t, RunsOf(t, n), name)
  }

  lemma DwellUpToStep(t: Track, n: nat, name: string)
    requires t.Valid() && n < |t.labels|
    ensures DwellUpTo(t, 0, name) == 0.0
    ensures DwellUpTo(t, n + 1, name) == DwellUpTo(t, n, name)
      + if Continues(t, n) && t.labels[n] == Some(name) then t.times[n] - t.times[n - 1] else 0.0
  {
    RunBounds(t, n);
    RunBounds(t, n + 1);
    DwellStep(t, n, name);
  }

  /** A name that does not occur has neither returns nor dwell. */
  lemma {:induction false} AbsentName(t: Track, n: nat, name: string)
    requires t.Valid() && n <= |t.labels|
    requires forall i :: 0 <= i < n ==> t.labels[i] != Some(name)
    ensures ReturnCount(t, n, name) == 0 && DwellUpTo(t, n, name) == 0.0
  {
    hide DwellUpTo, Seen;
    if n > 0 {
      AbsentName(t, n - 1, name);
      DwellUpToStep(t, n - 1, name);
    } else if 0 < |t.labels| {
      DwellUpToStep(t, 0, name);
    } else {
      NoDwell(t, name);
    }
  }

  lemma NoDwell(t: Track, name: string)
    requires t.Valid()
    ensures DwellUpTo(t, 0, name) == 0.0
  {
  }
}
