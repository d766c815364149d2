/** What a product's summary says about the timeline: its counts and ratios count the frames that map to it. */
module SummaryFacts {
  import opened Common
  import opened Observations
  import opened RunDecomposition
  import opened Evidence
  import opened EvidenceSummary
  import opened QualityFacts
  import Aoi = AoiMetadata

  function Mapped(): Frame -> bool {
    (f: Frame) => Aoi.MappedProduct(f).Some?
  }

  function MappedTo(p: string): Frame -> bool {
    (f: Frame) => Aoi.MappedProduct(f) == Some(p)
  }

  function GazedOn(p: string): Frame -> bool {
    (f: Frame) => Aoi.MappedProduct(f) == Some(p) && HasGaze(f)
  }

  function ExpressedOn(p: string): Frame -> bool {
    (f: Frame) => Aoi.MappedProduct(f) == Some(p) && HasExpression(f)
  }

  lemma CountGazeStep(fs: seq<Frame>, f: Frame)
    ensures CountGaze(fs + [f]) == CountGaze(fs) + if HasGaze(f) then 1 else 0
    ensures CountExpression(fs + [f]) == CountExpression(fs) + if HasExpression(f) then 1 else 0
  {
    assert (fs + [f])[..|fs|] == fs;
  }

  /** A product's frames, and those among them with gaze and with an expression. */
  lemma {:induction false} ProductCounted(fs: seq<Frame>, n: nat, p: string)
    requires n <= |fs|
    ensures |FramesOf(fs, n, p)| == |Chosen(fs[..n], MappedTo(p))|
    ensures CountGaze(FramesOf(fs, n, p)) == |Chosen(fs[..n], GazedOn(p))|
    ensures CountExpression(FramesOf(fs, n, p)) == |Chosen(fs[..n], ExpressedOn(p))|
  {
    hide Chosen, CountGaze, CountExpression, HasGaze, HasExpression, Aoi.MappedProduct;
    if n == 0 {
      NoneChosen(MappedTo(p));
      NoneChosen(GazedOn(p));
      NoneChosen(ExpressedOn(p));
      NothingCounted();
    } else {
      ProductCounted(fs, n - 1, p);
      assert fs[..n][..n - 1] == fs[..n - 1];
      ChosenStep(fs[..n], MappedTo(p));
      ChosenStep(fs[..n], GazedOn(p));
      ChosenStep(fs[..n], ExpressedOn(p));
      CountGazeStep(FramesOf(fs, n - 1, p), fs[n - 1]);
      assert Aoi.MappedProduct(fs[n - 1]) != Some(p) ==> FramesOf(fs, n, p) == FramesOf(fs, n - 1, p);
    }
  }

  lemma NothingCounted()
    ensures CountGaze([]) == 0 && CountExpression([]) == 0
  {
  }

  lemma {:induction false} MappedCounted(fs: seq<Frame>)
    ensures Unambiguous(fs) == |Chosen(fs, Mapped())|
  {
    hide Chosen, Aoi.MappedProduct;
    if fs == [] {
      NoneChosen(Mapped());
    } else {
      MappedCounted(fs[..|fs| - 1]);
      ChosenStep(fs, Mapped());
    }
  }

  /** What a share of `whole` amounts to. */
  function Of(share: real, whole: nat): real {
    share * whole as real
  }

  lemma RatioTimes(n: nat, d: nat)
    requires d > 0
    ensures Of(Ratio(n, d), d) == n as real
  {
  }

  /** A gaze summary over these frames. */
  lemma GazeParts(frames: seq<Frame>, dwell: real, mapped: nat, comparisons: nat, returned: nat)
    requires |frames| <= mapped
    ensures var g := GazeSummaryOf(frames, dwell, mapped, comparisons, returned);
      && (g.Some? <==> CountGaze(frames) > 0)
      && (g.Some? ==> g.value.validCount == CountGaze(frames) && g.value.attentionMs == dwell
                      && Of(g.value.attentionRatio, mapped) == |frames| as real
                      && g.value.returnCandidates == if comparisons > 0 then Some(returned) else None)
  {
    hide Of, Ratio, CountGaze;
    if mapped > 0 {
      RatioTimes(|frames|, mapped);
    }
  }

  lemma ExpressionParts(frames: seq<Frame>, s: Signals)
    ensures var x := ExpressionSummaryOf(frames, s);
      && (x.Some? <==> CountExpression(frames) > 0)
      && (x.Some? ==> x.value.matchedCount == CountExpression(frames)
                      && Of(x.value.coverage, |frames|) == CountExpression(frames) as real)
  {
    hide Of, Ratio, CountExpression;
    if CountExpression(frames) > 0 {
      RatioTimes(CountExpression(frames), |frames|);
    }
  }

  /**
   A product has a gaze summary exactly when a frame that maps to it has gaze, and it counts those frames; its
   attention ratio is its share of the mapped frames. It has an expression summary exactly when a frame that maps to
   it has an expression, and its coverage is the share of those among the product's frames.
   */
  lemma SummaryCounts(fs: seq<Frame>, p: string)
    ensures var s, gazed, expressed := SummaryOf(fs, p), |Chosen(fs, GazedOn(p))|, |Chosen(fs, ExpressedOn(p))|;
      && s.productId == p && (s.gaze.Some? <==> gazed > 0) && (s.expression.Some? <==> expressed > 0)
      && (s.gaze.Some? ==>
        && s.gaze.value.validCount == gazed && s.gaze.value.attentionMs == s.exposureMs
        && Of(s.gaze.value.attentionRatio, |Chosen(fs, Mapped())|) == |Chosen(fs, MappedTo(p))| as real
        && (s.gaze.value.returnCandidates.Some? <==>
          exists i :: 0 < i < |fs| && Aoi.MappedProduct(fs[i]) == Some(p) && !Discontinuous(fs[i - 1], fs[i])))
      && (s.expression.Some? ==>
        && s.expression.value.matchedCount == expressed
        && Of(s.expression.value.coverage, |Chosen(fs, MappedTo(p))|) == expressed as real)
  {
    hide TrackOf, RunsOf, Dwell, FramesOf, Unambiguous, SignalsOf, Comparisons, ReturnCount, ComponentsOf, TagsOf,
      Chosen, GazeSummaryOf, ExpressionSummaryOf, CountGaze, CountExpression, Of, Aoi.MappedProduct, Discontinuous;
    var t, n := TrackOf(fs), |fs|;
    RunBounds(t, n);
    var frames, dwell := FramesOf(fs, n, p), Dwell(t, RunsOf(t, n), p);
    ProductCounted(fs, n, p);
    assert fs[..n] == fs;
    MappedCounted(fs);
    ComparedMeans(fs, n, p);
    FramesAreAttributed(fs, n, p);
    GazeParts(frames, dwell, Unambiguous(fs), Comparisons(fs, n, p), ReturnCount(t, n, p));
    ExpressionParts(frames, SignalsOf(fs, n, p));
  }

  // ----- What a window's codes say -----

  /** Frame `i` maps to the product and does not follow a discontinuity. */
  predicate Follows(fs: seq<Frame>, i: nat, p: string)
    requires i < |fs|
  {
    Aoi.MappedProduct(fs[i]) == Some(p) && (i == 0 || !Discontinuous(fs[i - 1], fs[i]))
  }

  predicate Moves(f: Frame) {
    f.derived.value.Some? && f.derived.value.value.movement.Some?
  }

  /** The frame names some changed expression signal. */
  predicate ChangesFace(f: Frame) {
    && f.derived.value.Some? && f.derived.value.value.expression.Some?
    && f.derived.value.value.expression.value.scoreChanges.Some?
    && f.derived.value.value.expression.value.scoreChanges.value != map[]
  }

  lemma FrameSignalsMean(f: Frame)
    ensures FrameSignals(f).moved <==> Moves(f)
    ensures FrameSignals(f).changes != {} <==> ChangesFace(f)
  {
    if ChangesFace(f) {
      var changes := f.derived.value.value.expression.value.scoreChanges.value;
      var x :| x in changes;
      assert x in FrameSignals(f).changes;
    }
  }

  lemma SignalsSay(fs: seq<Frame>, n: nat, p: string)
    requires n <= |fs|
    ensures SignalsOf(fs, n, p).moved <==> exists i :: 0 <= i < n && Follows(fs, i, p) && Moves(fs[i])
    ensures SignalsOf(fs, n, p).changes != {} <==> exists i :: 0 <= i < n && Follows(fs, i, p) && ChangesFace(fs[i])
  {
    hide Aoi.MappedProduct, Discontinuous, Moves, ChangesFace, FrameSignals, SignalsOf;
    SignalsMean(fs, n, p);
    forall i | 0 <= i < n
      ensures Contributes(fs, i, p) <==> Follows(fs, i, p)
      ensures FrameSignals(fs[i]).moved <==> Moves(fs[i])
      ensures FrameSignals(fs[i]).changes != {} <==> ChangesFace(fs[i])
    {
      FrameSignalsMean(fs[i]);
    }
    SomeChange(fs, n, p);
  }

  lemma SomeChange(fs: seq<Frame>, n: nat, p: string)
    requires n <= |fs|
    ensures SignalsOf(fs, n, p).changes != {} <==>
      exists i :: 0 <= i < n && Contributes(fs, i, p) && FrameSignals(fs[i]).changes != {}
  {
    hide Contributes, FrameSignals, SignalsOf;
    SignalsMean(fs, n, p);
    if SignalsOf(fs, n, p).changes != {} {
      var x :| x in SignalsOf(fs, n, p).changes;
      assert exists i :: 0 <= i < n && Contributes(fs, i, p) && x in FrameSignals(fs[i]).changes;
    }
    if i :| 0 <= i < n && Contributes(fs, i, p) && FrameSignals(fs[i]).changes != {} {
      var x :| x in FrameSignals(fs[i]).changes;
      assert x in SignalsOf(fs, n, p).changes;
    }
  }

  /**
   Every window carries "observed_attention". It carries "gaze_movement" and "face_action_change" exactly when a frame
   of its product, up to its end and not just after a discontinuity, carries a movement or a changed signal.
   */
  lemma WindowCodesMean(fs: seq<Frame>, k: nat)
    requires |fs| <= MAX_TIMELINE && k < |WindowsOf(fs)|
    ensures k < |RunsOf(TrackOf(fs), |fs|)| && RunsOf(TrackOf(fs), |fs|)[k].end < |fs|
    ensures var w, end := WindowsOf(fs)[k], RunsOf(TrackOf(fs), |fs|)[k].end;
      && ObservedAttention in w.codes && ProductTagMatch !in w.codes && DataQualityCode !in w.codes
      && (GazeMovement in w.codes <==> exists i :: 0 <= i <= end && Follows(fs, i, w.productId) && Moves(fs[i]))
      && (FaceActionChange in w.codes <==> exists i :: 0 <= i <= end && Follows(fs, i, w.productId) && ChangesFace(fs[i]))
  {
    hide Aoi.MappedProduct, RunsOf, TrackOf, Follows, Moves, ChangesFace, SignalsOf, ReturnCount, ComponentsOf, TagsOf, WindowId,
      Pow10;
    RunsFit(fs);
    var r := RunsOf(TrackOf(fs), |fs|)[k];
    assert r in RunsOf(TrackOf(fs), |fs|);
    SignalsSay(fs, r.end + 1, r.name);
  }

  // ----- Comparisons -----

  lemma {:induction false} ComparedMeans(fs: seq<Frame>, n: nat, p: string)
    requires n <= |fs|
    ensures Comparisons(fs, n, p) > 0 <==>
      exists i :: 0 < i < n && Aoi.MappedProduct(fs[i]) == Some(p) && !Discontinuous(fs[i - 1], fs[i])
  {
    hide Aoi.MappedProduct, Discontinuous;
    if n > 0 {
      ComparedMeans(fs, n - 1, p);
    }
  }
}
