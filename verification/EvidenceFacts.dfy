/**
 What the evidence means: windows are the maximal runs, the per-product numbers are sums over them,
 and the invariants that the store keeps make every snapshot total and well-formed.
 */
module EvidenceFacts {
  import opened Common
  import opened Observations
  import opened RunDecomposition
  import opened Evidence
  import opened EvidenceSummary
  import Aoi = AoiMetadata

  // ----- Windows -----

  /** The frames `start..end` of a maximal same-product stretch without a discontinuity inside. */
  ghost predicate ProductRun(fs: seq<Frame>, start: nat, end: nat, p: string) {
    && start <= end < |fs|
    && (forall i :: start <= i <= end ==> Aoi.MappedProduct(fs[i]) == Some(p))
    && (forall i :: start < i <= end ==> !BreakAt(fs, i))
    && (start == 0 || BreakAt(fs, start) || Aoi.MappedProduct(fs[start - 1]) != Some(p))
    && (end + 1 == |fs| || BreakAt(fs, end + 1) || Aoi.MappedProduct(fs[end + 1]) != Some(p))
  }

  lemma ProductRunIsRun(fs: seq<Frame>, r: Run)
    ensures ProductRun(fs, r.start, r.end, r.name) <==> IsRun(TrackOf(fs), |fs|, r)
  {
    hide Aoi.MappedProduct, BreakAt, TrackOf;
    var t := TrackOf(fs);
    if r.start <= r.end < |fs| {
      assert (forall i :: r.start < i <= r.end ==> !t.breaks[i]) <==> forall i :: r.start < i <= r.end ==> !BreakAt(fs, i);
      assert (forall i :: r.start <= i <= r.end ==> t.labels[i] == Some(r.name)) <==>
        forall i :: r.start <= i <= r.end ==> Aoi.MappedProduct(fs[i]) == Some(r.name);
    }
  }

  /**
   The windows are exactly the maximal same-product runs, in order: window `k` shows run `k`, and
   every product run is some window's.
   */
  lemma WindowsAreProductRuns(fs: seq<Frame>)
    requires |fs| <= MAX_TIMELINE
    ensures var rs, ws := RunsOf(TrackOf(fs), |fs|), WindowsOf(fs);
      && |ws| == |rs| && InOrder(rs)
      && (forall k :: 0 <= k < |ws| ==>
        && ProductRun(fs, rs[k].start, rs[k].end, ws[k].productId)
        && ws[k].startOffset == fs[rs[k].start].sessionOffset && ws[k].endOffset == fs[rs[k].end].sessionOffset
        && ws[k].videoStart == fs[rs[k].start].videoTime && ws[k].videoEnd == fs[rs[k].end].videoTime
        && ws[k].epoch == fs[rs[k].start].epoch)
      && (forall a, b, p :: ProductRun(fs, a, b, p) ==> Run(a, b, p) in rs)
  {
    hide ProductRun, IsRun;
    var t, rs, ws := TrackOf(fs), RunsOf(TrackOf(fs), |fs|), WindowsOf(fs);
    RunsExact(t);
    RunsFit(fs);
    forall k | 0 <= k < |ws| ensures ProductRun(fs, rs[k].start, rs[k].end, rs[k].name) {
      assert rs[k] in rs;
      ProductRunIsRun(fs, rs[k]);
    }
    forall a: nat, b: nat, p | ProductRun(fs, a, b, p) ensures Run(a, b, p) in rs {
      ProductRunIsRun(fs, Run(a, b, p));
    }
  }

  function CountWindows(ws: seq<Window>, p: string): nat {
    if ws == [] then 0 else CountWindows(ws[..|ws| - 1], p) + if ws[|ws| - 1].productId == p then 1 else 0
  }

  lemma {:induction false} CountsAgree(ws: seq<Window>, rs: seq<Run>, p: string)
    requires |ws| == |rs| && forall k :: 0 <= k < |ws| ==> ws[k].productId == rs[k].name
    ensures CountWindows(ws, p) == CountRuns(rs, p)
  {
    if ws != [] {
      CountsAgree(ws[..|ws| - 1], rs[..|rs| - 1], p);
    }
  }

  /** For every product: windows = returns + continuous segments containing it. */
  lemma WindowsReturnsSegments(fs: seq<Frame>, p: string)
    requires |fs| <= MAX_TIMELINE
    ensures CountWindows(WindowsOf(fs), p) ==
      ReturnCount(TrackOf(fs), |fs|, p) + |SegmentsWith(TrackOf(fs), |fs|, p)|
  {
    RunsFit(fs);
    CountsAgree(WindowsOf(fs), RunsOf(TrackOf(fs), |fs|), p);
    RunsReturnsSegments(TrackOf(fs), |fs|, p);
  }

  lemma {:induction false} ReturnsExist(t: RunDecomposition.Track, n: nat, p: string)
    requires t.Valid() && n <= |t.labels|
    ensures ReturnCount(t, n, p) > 0 <==> exists i :: 0 <= i < n && Returns(t, i, p)
  {
    if n > 0 {
      hide Returns;
      ReturnsExist(t, n - 1, p);
    }
  }

  ghost predicate StartsWithReturn(t: RunDecomposition.Track, r: Run)
    requires t.Valid()
  {
    r.start < |t.labels| && Returns(t, r.start, r.name)
  }

  lemma RunsWithin(t: RunDecomposition.Track)
    requires t.Valid()
    ensures forall k :: 0 <= k < |RunsOf(t, |t.labels|)| ==>
      RunsOf(t, |t.labels|)[k].start <= RunsOf(t, |t.labels|)[k].end < |t.labels|
  {
    RunBounds(t, |t.labels|);
    hide RunsOf;
    var rs := RunsOf(t, |t.labels|);
    assert forall k :: 0 <= k < |rs| ==> rs[k] in rs;
  }

  lemma OrderBound(rs: seq<Run>, j: nat, k: nat)
    requires InOrder(rs) && j < |rs| && k < |rs| && rs[j].start <= rs[k].end
    ensures j <= k
  {
  }

  /** Returns to run `k`'s product up to its end are exactly the returning runs of that product up to `k`. */
  lemma ReturnsUpToRun(t: RunDecomposition.Track, k: nat)
    requires t.Valid() && k < |RunsOf(t, |t.labels|)|
    ensures var rs := RunsOf(t, |t.labels|);
      rs[k].end < |t.labels| &&
      (ReturnCount(t, rs[k].end + 1, rs[k].name) > 0 <==>
      exists j :: 0 <= j <= k && rs[j].name == rs[k].name && StartsWithReturn(t, rs[j]))
  {
    hide RunsOf, ReturnCount, IsRun, Returns;
    RunsWithin(t);
    var rs := RunsOf(t, |t.labels|);
    var p, n := rs[k].name, rs[k].end + 1;
    ReturnsExist(t, n, p);
    if i :| 0 <= i < n && Returns(t, i, p) {
      ReturnFindsRun(t, k, i);
    }
    if j :| 0 <= j <= k && rs[j].name == p && StartsWithReturn(t, rs[j]) {
      RunStartsBefore(t, j, k);
    }
  }

  lemma ReturnFindsRun(t: RunDecomposition.Track, k: nat, i: nat)
    requires t.Valid() && k < |RunsOf(t, |t.labels|)|
    requires i <= RunsOf(t, |t.labels|)[k].end && i < |t.labels| && Returns(t, i, RunsOf(t, |t.labels|)[k].name)
    ensures var rs := RunsOf(t, |t.labels|);
      exists j :: 0 <= j <= k && rs[j].name == rs[k].name && StartsWithReturn(t, rs[j])
  {
    hide RunsOf, IsRun, Returns;
    RunsExact(t);
    var rs := RunsOf(t, |t.labels|);
    var r := ReturnStartsRun(t, i, rs[k].name);
    assert r in rs;
    var j :| 0 <= j < |rs| && rs[j] == r;
    OrderBound(rs, j, k);
    assert StartsWithReturn(t, rs[j]);
  }

  lemma RunStartsBefore(t: RunDecomposition.Track, j: nat, k: nat)
    requires t.Valid() && j <= k < |RunsOf(t, |t.labels|)|
    ensures RunsOf(t, |t.labels|)[j].start <= RunsOf(t, |t.labels|)[k].end
  {
    hide RunsOf, IsRun;
    RunsExact(t);
    RunsWithin(t);
  }

  /**
   A window says "return_candidate" exactly when it, or an earlier window of the same product, starts
   with a return: the code is cumulative, not local.
   */
  lemma ReturnCodeIsCumulative(fs: seq<Frame>, k: nat)
    requires |fs| <= MAX_TIMELINE && k < |WindowsOf(fs)|
    ensures var rs := RunsOf(TrackOf(fs), |fs|);
      ReturnCandidate in WindowsOf(fs)[k].codes <==>
      exists j :: 0 <= j <= k && rs[j].name == rs[k].name && StartsWithReturn(TrackOf(fs), rs[j])
  {
    hide RunsOf, TrackOf, ReturnCount, SignalsOf, StartsWithReturn, ComponentsOf, TagsOf, WindowId, Pow10;
    RunsFit(fs);
    ReturnsUpToRun(TrackOf(fs), k);
  }

  lemma {:induction false} LastOfStretch(t: RunDecomposition.Track, i: nat, p: string) returns (b: nat)
    requires t.Valid() && i < |t.labels| && t.labels[i] == Some(p)
    ensures Stretch(t, i, b, p)
    ensures b + 1 == |t.labels| || t.breaks[b + 1] || t.labels[b + 1] != Some(p)
    decreases |t.labels| - i
  {
    b := i;
    if i + 1 < |t.labels| && !t.breaks[i + 1] && t.labels[i + 1] == Some(p) {
      b := LastOfStretch(t, i + 1, p);
    }
  }

  /** A return is the first frame of a run. */
  lemma ReturnStartsRun(t: RunDecomposition.Track, i: nat, p: string) returns (r: Run)
    requires t.Valid() && i < |t.labels| && Returns(t, i, p)
    ensures IsRun(t, |t.labels|, r) && r.start == i && r.name == p
  {
    var b := LastOfStretch(t, i, p);
    r := Run(i, b, p);
  }

  // ----- Well-formedness from the store's order -----

  /** Session offsets never go back in analysis order: what ingestion establishes. */
  ghost predicate OffsetsAscend(fs: seq<Frame>) {
    forall i, j :: 0 <= i < j < |fs| ==> fs[i].sessionOffset <= fs[j].sessionOffset
  }

  lemma {:induction false} RunKeepsEpoch(fs: seq<Frame>, start: nat, i: nat)
    requires start <= i < |fs|
    requires forall j :: start < j <= i ==> !BreakAt(fs, j)
    ensures fs[i].epoch == fs[start].epoch && fs[start].videoTime <= fs[i].videoTime
  {
    if start < i {
      assert !BreakAt(fs, i);
      RunKeepsEpoch(fs, start, i - 1);
    }
  }

  /** Neither the session offset nor the video time of any window goes back. */
  lemma WindowsForward(fs: seq<Frame>)
    requires |fs| <= MAX_TIMELINE && OffsetsAscend(fs)
    ensures forall w :: w in WindowsOf(fs) ==> w.Valid()
  {
    hide RunsOf, TrackOf, WindowsOf, BreakAt, Aoi.MappedProduct, ProductRun, OffsetsAscend, Window.Valid;
    WindowsAreProductRuns(fs);
    var rs, ws := RunsOf(TrackOf(fs), |fs|), WindowsOf(fs);
    forall w | w in ws ensures w.Valid() {
      var k :| 0 <= k < |ws| && ws[k] == w;
      RunForward(fs, rs[k].start, rs[k].end, w);
    }
  }

  lemma RunForward(fs: seq<Frame>, start: nat, end: nat, w: Window)
    requires OffsetsAscend(fs) && ProductRun(fs, start, end, w.productId)
    requires w.startOffset == fs[start].sessionOffset && w.endOffset == fs[end].sessionOffset
    requires w.videoStart == fs[start].videoTime && w.videoEnd == fs[end].videoTime
    ensures w.Valid()
  {
    hide BreakAt, Aoi.MappedProduct;
    RunKeepsEpoch(fs, start, end);
  }

  /** Inside a window there is one epoch, and neither the session offset nor the video time goes back. */
  lemma ProductRunForward(fs: seq<Frame>, start: nat, end: nat, p: string, i: nat, j: nat)
    requires OffsetsAscend(fs) && ProductRun(fs, start, end, p) && start <= i <= j <= end
    ensures fs[i].epoch == fs[j].epoch && fs[i].videoTime <= fs[j].videoTime
    ensures fs[i].sessionOffset <= fs[j].sessionOffset
  {
    hide Aoi.MappedProduct, BreakAt;
    RunKeepsEpoch(fs, i, j);
  }

  // ----- Attention ratios -----

  function SumFrames(fs: seq<Frame>, ids: seq<string>): nat {
    if ids == [] then 0 else SumFrames(fs, ids[..|ids| - 1]) + |FramesOf(fs, |fs|, ids[|ids| - 1])|
  }

  lemma {:induction false} FramesOfInit(fs: seq<Frame>, f: Frame, n: nat, p: string)
    requires n <= |fs|
    ensures FramesOf(fs + [f], n, p) == FramesOf(fs, n, p)
  {
    if n > 0 {
      FramesOfInit(fs, f, n - 1, p);
    }
  }

  lemma {:induction false} SumFramesStep(fs: seq<Frame>, f: Frame, ids: seq<string>)
    requires forall i, j :: 0 <= i < j < |ids| ==> ids[i] != ids[j]
    ensures SumFrames(fs + [f], ids) == SumFrames(fs, ids)
      + if Aoi.MappedProduct(f).Some? && Aoi.MappedProduct(f).value in ids then 1 else 0
  {
    hide Aoi.MappedProduct;
    if ids != [] {
      var init, p := ids[..|ids| - 1], ids[|ids| - 1];
      assert ids == init + [p];
      SumFramesStep(fs, f, init);
      FramesOfInit(fs, f, |fs|, p);
      assert (fs + [f])[|fs|] == f;
    }
  }

  /** Each attributed frame belongs to exactly one catalog product. */
  lemma {:induction false} FramesPartition(fs: seq<Frame>, ids: seq<string>)
    requires forall i, j :: 0 <= i < j < |ids| ==> ids[i] != ids[j]
    requires forall f :: f in fs && Aoi.MappedProduct(f).Some? ==> Aoi.MappedProduct(f).value in ids
    ensures SumFrames(fs, ids) == Unambiguous(fs)
  {
    if fs == [] {
      NoFrames(ids);
    } else {
      var init, f := fs[..|fs| - 1], fs[|fs| - 1];
      assert fs == init + [f];
      FramesPartition(init, ids);
      SumFramesStep(init, f, ids);
    }
  }

  lemma {:induction false} NoFrames(ids: seq<string>)
    ensures SumFrames([], ids) == 0
  {
    if ids != [] {
      NoFrames(ids[..|ids| - 1]);
    }
  }

  /** The share of attributed frames that a product received. */
  function Share(s: ProductSummary): real {
    if s.gaze.Some? then s.gaze.value.attentionRatio else 0.0
  }

  function SumShares(ss: seq<ProductSummary>): real {
    if ss == [] then 0.0 else SumShares(ss[..|ss| - 1]) + Share(ss[|ss| - 1])
  }

  lemma RatioAdds(a: nat, b: nat, d: nat)
    requires d > 0
    ensures Ratio(a, d) + Ratio(b, d) == Ratio(a + b, d)
  {
    assert a as real + b as real == (a + b) as real;
  }

  lemma WholeRatio(d: nat)
    requires d > 0
    ensures Ratio(d, d) == 1.0
  {
  }

  lemma {:induction false} GazeOfMapped(fs: seq<Frame>)
    requires forall f :: f in fs ==> f.gaze.value.Some?
    ensures CountGaze(fs) == |fs|
  {
    if fs != [] {
      GazeOfMapped(fs[..|fs| - 1]);
    }
  }

  lemma {:induction false} FramesOfAre(fs: seq<Frame>, n: nat, p: string)
    requires n <= |fs|
    ensures forall f :: f in FramesOf(fs, n, p) <==> f in fs[..n] && Aoi.MappedProduct(f) == Some(p)
  {
    hide Aoi.MappedProduct;
    if n > 0 {
      FramesOfAre(fs, n - 1, p);
      assert fs[..n] == fs[..n - 1] + [fs[n - 1]];
    }
  }

  lemma ShareIs(fs: seq<Frame>, p: string)
    requires forall f :: f in fs && Aoi.MappedProduct(f).Some? ==> f.gaze.value.Some?
    requires Unambiguous(fs) > 0
    ensures Share(SummaryOf(fs, p)) == Ratio(|FramesOf(fs, |fs|, p)|, Unambiguous(fs))
  {
    hide Aoi.MappedProduct, RunsOf, TrackOf, Unambiguous, Comparisons, ReturnCount, Dwell, ComponentsOf, TagsOf, FramesOf,
      GazeSummaryOf, ExpressionSummaryOf, SignalsOf, Ratio, CountGaze;
    var frames := FramesOf(fs, |fs|, p);
    FramesOfAre(fs, |fs|, p);
    GazeOfMapped(frames);
    RunsFit(fs);
    ShareOf(frames, SummaryOf(fs, p).exposureMs, Unambiguous(fs), Comparisons(fs, |fs|, p),
            ReturnCount(TrackOf(fs), |fs|, p));
  }

  lemma ShareOf(frames: seq<Frame>, dwell: real, unambiguous: nat, comparisons: nat, returned: nat)
    requires CountGaze(frames) == |frames| && unambiguous > 0
    ensures var gaze := GazeSummaryOf(frames, dwell, unambiguous, comparisons, returned);
      (if gaze.Some? then gaze.value.attentionRatio else 0.0) == Ratio(|frames|, unambiguous)
  {
    hide CountGaze;
    ZeroRatio(unambiguous);
    hide Ratio;
  }

  lemma {:induction false} SharesSum(fs: seq<Frame>, ids: seq<string>)
    requires forall f :: f in fs && Aoi.MappedProduct(f).Some? ==> f.gaze.value.Some?
    requires Unambiguous(fs) > 0
    ensures SumShares(Summaries(fs, ids)) == Ratio(SumFrames(fs, ids), Unambiguous(fs))
  {
    hide Unambiguous, FramesOf, SummaryOf, Ratio, Share, Aoi.MappedProduct;
    if ids == [] {
      ZeroRatio(Unambiguous(fs));
    } else {
      var init := ids[..|ids| - 1];
      SharesSum(fs, init);
      ShareIs(fs, ids[|ids| - 1]);
      RatioAdds(SumFrames(fs, init), |FramesOf(fs, |fs|, ids[|ids| - 1])|, Unambiguous(fs));
      assert Summaries(fs, ids)[..|init|] == Summaries(fs, init);
    }
  }

  lemma ZeroRatio(d: nat)
    requires d > 0
    ensures Ratio(0, d) == 0.0
  {
  }

  /**
   Attention ratios of the observed products sum to one, given that attributed frames carry gaze and
   that approved AOIs name catalog products only.
   */
  lemma AttentionRatiosSumToOne(fs: seq<Frame>, ids: seq<string>)
    requires forall f :: f in fs && Aoi.MappedProduct(f).Some? ==> f.gaze.value.Some?
    requires forall i, j :: 0 <= i < j < |ids| ==> ids[i] != ids[j]
    requires forall f :: f in fs && Aoi.MappedProduct(f).Some? ==> Aoi.MappedProduct(f).value in ids
    ensures Unambiguous(fs) > 0 ==> SumShares(Summaries(fs, ids)) == 1.0
  {
    if Unambiguous(fs) > 0 {
      SharesSum(fs, ids);
      FramesPartition(fs, ids);
      hide Unambiguous, SumShares, SumFrames, Summaries;
      WholeRatio(Unambiguous(fs));
    }
  }
}
