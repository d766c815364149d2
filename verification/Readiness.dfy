/**
 When completion calls the model, and what it says when it does not, in terms of the stored frames.
 */
module Readiness {
  import opened Common
  import opened Observations
  import opened RunDecomposition
  import opened SourceAoi
  import opened Ingestion
  import opened Evidence
  import opened EvidenceSummary
  import opened EvidenceFacts
  import opened SourceEvidence
  import opened Snapshots
  import opened Gate
  import opened Completion
  import opened Grounding
  import opened CompletionFacts
  import opened QualityFacts
  import Aoi = AoiMetadata

  /** Approved AOIs put some stored frame on one product alone. */
  ghost predicate SomeHit(ctx: SessionContext, m: map<Key, Frame>) {
    exists k, product :: k in m && ctx.aoi.Some? && Aoi.Hits(m[k], ctx.aoi.value, product)
  }

  ghost predicate SomeMapped(fs: seq<Frame>) {
    exists i :: 0 <= i < |fs| && Aoi.MappedProduct(fs[i]).Some?
  }

  lemma PlaceHits(ctx: SessionContext, observations: seq<Frame>, i: nat)
    requires forall o :: o in observations ==> o.Valid() && Admissible(ctx, o)
    requires ctx.source.None? && i < |observations|
    ensures |Ordered(observations)| == |observations| && Ordered(observations)[i] in observations
    ensures Aoi.MappedProduct(FramesOfSnapshot(ctx, observations)[i]).Some? <==>
              exists product :: ctx.aoi.Some? && Aoi.Hits(Ordered(observations)[i], ctx.aoi.value, product)
  {
    hide Frame.Valid, Aoi.MapFrame, Aoi.MappedProduct, Aoi.Enrich, Ordered, Aoi.Hits, Admissible;
    OrderedAdmissible(ctx, observations);
    OrderedMembers(observations);
    assert Ordered(observations)[i] in Ordered(observations);
    forall product
      ensures Aoi.MappedProduct(FramesOfSnapshot(ctx, observations)[i]) == Some(product) <==>
                ctx.aoi.Some? && Aoi.Hits(Ordered(observations)[i], ctx.aoi.value, product)
    {
      EnrichedHits(Ordered(observations), ctx.aoi, i, product);
    }
  }

  /** Some place in the enriched timeline is mapped exactly when some stored frame is. */
  lemma SomePlace(ctx: SessionContext, b: Buffer, observations: seq<Frame>)
    requires Snapshotted(ctx, b, observations) && ctx.source.None?
    ensures SomeMapped(FramesOfSnapshot(ctx, observations)) <==> SomeHit(ctx, b.observations)
  {
    hide Frame.Valid, Aoi.MapFrame, Aoi.MappedProduct, Ordered, Aoi.Hits, Admissible, BufferInv, ContextValid, Enumerates,
      FramesOfSnapshot, HitsKnown;
    OrderedLists(observations, b.observations);
    OrderedMembers(observations);
    var ordered := Ordered(observations);
    if i :| 0 <= i < |ordered| && Aoi.MappedProduct(FramesOfSnapshot(ctx, observations)[i]).Some? {
      PlaceHits(ctx, observations, i);
      assert ordered[i] in ordered && b.observations[ordered[i].FrameKey()] == ordered[i];
    }
    if k, product :| k in b.observations && ctx.aoi.Some? && Aoi.Hits(b.observations[k], ctx.aoi.value, product) {
      var i :| 0 <= i < |ordered| && ordered[i] == b.observations[k];
      PlaceHits(ctx, observations, i);
    }
  }

  lemma EligibleIsMapped(fs: seq<Frame>, ids: seq<string>)
    requires EligibleIds(fs, ids) != {}
    ensures SomeMapped(fs)
  {
    hide Aoi.MappedProduct;
    var p :| p in EligibleIds(fs, ids);
    FramesOfAre(fs, |fs|, p);
    assert fs[..|fs|] == fs;
    var f := FramesOf(fs, |fs|, p)[0];
    assert f in FramesOf(fs, |fs|, p);
  }

  lemma WindowsAreMapped(fs: seq<Frame>)
    requires |fs| <= MAX_TIMELINE && WindowsOf(fs) != []
    ensures SomeMapped(fs)
  {
    hide Aoi.MappedProduct, RunsOf;
    RunsFit(fs);
    var i := SomeLabel(fs);
  }

  /** What readiness asks of the evidence, on the legacy path. */
  lemma LegacyReady(ctx: SessionContext, b: Buffer, observations: seq<Frame>, input: Variant, modelId: string)
    requires Snapshotted(ctx, b, observations) && ctx.source.None? && observations != []
    requires Summarized(observations, MappingMetadata(ctx), CatalogOrder(ctx.products), input).Ok?
    ensures Ready(ctx, Summarized(observations, MappingMetadata(ctx), CatalogOrder(ctx.products), input).value, None, modelId)
      <==> SomeHit(ctx, b.observations) || modelId == LUNA_MODEL_ID
  {
    hide Frame.Valid, Admissible, HitsKnown, BufferInv, Enumerates, Summarized, ContextValid, Ordered, Enriched, RunsOf,
      Quality, Summaries, WindowsOf, CatalogIds, Eligible, SomeMapped, SomeHit, EligibleIds;
    var fs := FramesOfSnapshot(ctx, observations);
    SummarizedParts(observations, MappingMetadata(ctx), CatalogOrder(ctx.products), input);
    SomePlace(ctx, b, observations);
    var s := Summarized(observations, MappingMetadata(ctx), CatalogOrder(ctx.products), input).value;
    if s.eligible != {} {
      EligibleIsMapped(fs, CatalogIds(CatalogOrder(ctx.products), fs));
    }
    if WindowsOf(fs) != [] {
      WindowsAreMapped(fs);
    }
    if SomeMapped(fs) {
      MappedIsReady(ctx, observations, input);
    }
  }

  lemma MappedIsReady(ctx: SessionContext, observations: seq<Frame>, input: Variant)
    requires ContextValid(ctx) && ctx.source.None? && forall o :: o in observations ==> o.Valid() && Admissible(ctx, o)
    requires SomeMapped(FramesOfSnapshot(ctx, observations))
    requires Summarized(observations, MappingMetadata(ctx), CatalogOrder(ctx.products), input).Ok?
    ensures var s := Summarized(observations, MappingMetadata(ctx), CatalogOrder(ctx.products), input).value;
      s.eligible != {} && s.evidence.quality.gazeValid > 0.0
  {
    hide Frame.Valid, Admissible, Summarized, ContextValid, FramesOfSnapshot, Aoi.MappedProduct;
    var i :| 0 <= i < |FramesOfSnapshot(ctx, observations)| && Aoi.MappedProduct(FramesOfSnapshot(ctx, observations)[i]).Some?;
    MappedMakesReady(ctx, observations, input, i);
  }

  /** What readiness asks of the evidence on the source path: nothing maps there, so it is always variant B. */
  lemma SourceReady(ctx: SessionContext, b: Buffer, observations: seq<Frame>, input: Variant, modelId: string,
                    quality: DataQuality)
    requires Snapshotted(ctx, b, observations) && ctx.source.Some? && observations != []
    requires Summarized(observations, MappingMetadata(ctx), CatalogOrder(ctx.products), input).Ok?
    requires VisualOf(ctx, observations, b.sourceHits).Ok?
    ensures var s := Summarized(observations, MappingMetadata(ctx), CatalogOrder(ctx.products), input).value;
      Ready(ctx, Snapshot(s.evidence.(quality := quality), s.eligible), VisualOf(ctx, observations, b.sourceHits).value,
            modelId)
      <==> (quality.gazeValid > 0.0 && VisualOf(ctx, observations, b.sourceHits).value.Some?) || modelId == LUNA_MODEL_ID
  {
    hide Frame.Valid, Admissible, HitsKnown, BufferInv, Enumerates, Summarized, ContextValid, Ordered, Enriched, RunsOf,
      Quality, Summaries, WindowsOf, CatalogIds, Eligible, VisualOf, EligibleIds;
    SummarizedParts(observations, MappingMetadata(ctx), CatalogOrder(ctx.products), input);
    OrderedMembers(observations);
    NoMetadataNoWindows(Ordered(observations));
  }

  /** The stored frames among which the source path finds its evidence. */
  lemma VisualIsStored(ctx: SessionContext, b: Buffer, observations: seq<Frame>)
    requires Snapshotted(ctx, b, observations) && ctx.source.Some?
    requires VisualOf(ctx, observations, b.sourceHits).Ok?
    ensures VisualOf(ctx, observations, b.sourceHits).value.Some? <==> Keyed(b.observations, SingleHit(b.sourceHits)) != {}
  {
    hide Frame.Valid, Admissible, HitsKnown, BufferInv, Enumerates, ContextValid, Ordered, VisualOf, Keyed, Chosen, Lists;
    OrderedLists(observations, b.observations);
    VisualCounts(ctx, observations, b.sourceHits);
    ChosenAreKeyed(Ordered(observations), b.observations, SingleHit(b.sourceHits));
    EmptyMeansNone(Chosen(Ordered(observations), SingleHit(b.sourceHits)), Keyed(b.observations, SingleHit(b.sourceHits)));
  }

  lemma PositiveGaze(q: DataQuality, m: map<Key, Frame>, matched: set<Key>, ambiguous: set<Key>)
    requires Reports(q, m, matched, ambiguous)
    ensures q.gazeValid > 0.0 <==> Keyed(m, HasGaze) != {}
    ensures q.gazeValid == 0.0 <==> Keyed(m, HasGaze) == {}
  {
    hide SpannedBy, Keyed;
  }

  /** The guard after aggregation, in terms of the stored frames. */
  ghost predicate CallsModel(ctx: SessionContext, b: Buffer, modelId: string) {
    || modelId == LUNA_MODEL_ID
    || (ctx.source.None? && SomeHit(ctx, b.observations))
    || (ctx.source.Some? && Keyed(b.observations, HasGaze) != {} && Keyed(b.observations, SingleHit(b.sourceHits)) != {})
  }

  lemma FinishDispatches(ctx: SessionContext, b: Buffer, observations: seq<Frame>, settings: Settings, modelId: string,
                         accepted: Acceptance, summarized: Snapshot, visual: Option<VisualEvidence>)
    requires Snapshotted(ctx, b, observations) && observations != []
    requires Summarized(observations, MappingMetadata(ctx), CatalogOrder(ctx.products), settings.inputVariant) == Ok(summarized)
    requires VisualOf(ctx, observations, b.sourceHits) == Ok(visual)
    ensures Finish(ctx, settings, modelId, accepted, summarized, visual).Dispatch? <==> CallsModel(ctx, b, modelId)
  {
    hide Frame.Valid, Admissible, HitsKnown, BufferInv, Enumerates, Summarized, ContextValid, Ready, Keyed, Ordered,
      SourceQuality, DemoDecision, Reports, SomeHit, Built, Enriched, Quality, FramesIn;
    if ctx.source.None? {
      LegacyReady(ctx, b, observations, settings.inputVariant, modelId);
    } else {
      var q := SourceQuality(summarized.evidence.quality, visual);
      SourceReady(ctx, b, observations, settings.inputVariant, modelId, q);
      VisualIsStored(ctx, b, observations);
      SummarizedParts(observations, MappingMetadata(ctx), CatalogOrder(ctx.products), settings.inputVariant);
      SnapshotCounts(ctx, b, observations, MappingMetadata(ctx));
      SourceReports(ctx, b, observations, summarized.evidence.quality);
      PositiveGaze(q, b.observations, MatchedKeys(ctx, b), AmbiguousKeys(ctx, b));
    }
  }

  /**
   When completion of a snapshot calls the model: exactly if the data model takes its evidence, there are frames,
   and the client is the one that also works without signal, or the frames support a choice: on the legacy path
   by one frame on one product, on the source path by a frame with gaze and one with a single source hit.
   */
  lemma DispatchedExactly(ctx: SessionContext, b: Buffer, observations: seq<Frame>, settings: Settings, modelId: string,
                          accepted: Acceptance)
    requires Snapshotted(ctx, b, observations)
    ensures var p := Prepare(ctx, observations, b.sourceHits, settings, modelId, accepted);
      p.Dispatch? <==> !p.Refused? && observations != [] && CallsModel(ctx, b, modelId)
  {
    hide Frame.Valid, Admissible, HitsKnown, BufferInv, Enumerates, Summarized, ContextValid, Built, Finish, CallsModel;
    if observations != [] {
      var summarized := Summarized(observations, MappingMetadata(ctx), CatalogOrder(ctx.products), settings.inputVariant);
      var visual := VisualOf(ctx, observations, b.sourceHits);
      if summarized.Ok? && visual.Ok? {
        FinishDispatches(ctx, b, observations, settings, modelId, accepted, summarized.value, visual.value);
        FinishNotRefused(ctx, settings, modelId, accepted, summarized.value, visual.value);
      }
    }
  }

  lemma FinishNotRefused(ctx: SessionContext, settings: Settings, modelId: string, accepted: Acceptance,
                         summarized: Snapshot, visual: Option<VisualEvidence>)
    ensures !Finish(ctx, settings, modelId, accepted, summarized, visual).Refused?
  {
    hide Ready, SourceQuality, DemoDecision;
  }

  lemma DemoCompletes(ctx: SessionContext, settings: Settings, modelId: string, e: EvidenceV2, accepted: Acceptance)
    ensures DemoDecision(ctx, settings, modelId, e, accepted).Some? ==>
              DemoDecision(ctx, settings, modelId, e, accepted).value.status == Completed
  {
  }

  lemma FinishReason(ctx: SessionContext, settings: Settings, modelId: string, accepted: Acceptance, summarized: Snapshot,
                     visual: Option<VisualEvidence>)
    ensures var p := Finish(ctx, settings, modelId, accepted, summarized, visual);
      p.Immediate? && p.decision.status == InsufficientData ==>
        p.decision.reason == if QualityOf(p).gazeValid == 0.0 then InsufficientValidSignal else NoEligibleProduct
  {
    hide Ready, SourceQuality, DemoDecision;
    var e := if ctx.source.None? then summarized.evidence
             else summarized.evidence.(quality := SourceQuality(summarized.evidence.quality, visual));
    DemoCompletes(ctx, settings, modelId, e, accepted);
  }

  /**
   Which insufficient-data answer is given at once: that there was no valid signal exactly when no stored frame
   has gaze, and that no product is eligible otherwise.
   */
  lemma InsufficientReason(ctx: SessionContext, b: Buffer, observations: seq<Frame>, settings: Settings, modelId: string,
                           accepted: Acceptance)
    requires Snapshotted(ctx, b, observations)
    ensures var p := Prepare(ctx, observations, b.sourceHits, settings, modelId, accepted);
      p.Immediate? && p.decision.status == InsufficientData ==>
        p.decision.reason == if exists k :: k in b.observations && b.observations[k].gaze.value.Some? then NoEligibleProduct
                             else InsufficientValidSignal
  {
    hide Frame.Valid, Admissible, HitsKnown, BufferInv, Enumerates, Summarized, ContextValid, Built, Finish, Reports,
      MatchedKeys, AmbiguousKeys;
    PreparedQuality(ctx, b, observations, settings, modelId, accepted);
    var p := Prepare(ctx, observations, b.sourceHits, settings, modelId, accepted);
    if !p.Refused? {
      PositiveGaze(QualityOf(p), b.observations, MatchedKeys(ctx, b), AmbiguousKeys(ctx, b));
      GazeKeys(b.observations);
    }
    if observations != [] {
      var summarized := Summarized(observations, MappingMetadata(ctx), CatalogOrder(ctx.products), settings.inputVariant);
      var visual := VisualOf(ctx, observations, b.sourceHits);
      if summarized.Ok? && visual.Ok? {
        FinishReason(ctx, settings, modelId, accepted, summarized.value, visual.value);
      }
    }
  }

  lemma GazeKeys(m: map<Key, Frame>)
    ensures Keyed(m, HasGaze) != {} <==> exists k :: k in m && m[k].gaze.value.Some?
  {
    if k :| k in m && m[k].gaze.value.Some? {
      assert k in Keyed(m, HasGaze);
    }
  }

  /** Without a mapped frame the evidence is variant B, with a timeline. */
  lemma UncalledIsTimeline(ctx: SessionContext, b: Buffer, observations: seq<Frame>, input: Variant, modelId: string)
    requires Snapshotted(ctx, b, observations) && observations != [] && !CallsModel(ctx, b, modelId)
    requires Summarized(observations, MappingMetadata(ctx), CatalogOrder(ctx.products), input).Ok?
    ensures var e := Summarized(observations, MappingMetadata(ctx), CatalogOrder(ctx.products), input).value.evidence;
      e.variant == B && e.timeline.Some? && e.timeline.value != []
  {
    hide Frame.Valid, Admissible, HitsKnown, BufferInv, Enumerates, Summarized, ContextValid, Ordered, Enriched, RunsOf,
      Quality, Summaries, WindowsOf, CatalogIds, Eligible, EligibleIds, SomeHit, Keyed, SomeMapped;
    SummarizedParts(observations, MappingMetadata(ctx), CatalogOrder(ctx.products), input);
    OrderedMembers(observations);
    if ctx.source.Some? {
      NoMetadataNoWindows(Ordered(observations));
    } else {
      SomePlace(ctx, b, observations);
      if WindowsOf(FramesOfSnapshot(ctx, observations)) != [] {
        WindowsAreMapped(FramesOfSnapshot(ctx, observations));
      }
    }
  }

  lemma DemoGiven(ctx: SessionContext, settings: Settings, modelId: string, e: EvidenceV2, accepted: Acceptance)
    requires ctx.products != [] && e.variant == B && e.timeline.Some? && e.timeline.value != []
    ensures DemoDecision(ctx, settings, modelId, e, accepted).Some? <==> settings.allowDemo && modelId == STUB_MODEL_ID
  {
  }

  lemma FinishDemo(ctx: SessionContext, settings: Settings, modelId: string, accepted: Acceptance, summarized: Snapshot,
                   visual: Option<VisualEvidence>)
    requires ctx.products != [] && summarized.evidence.variant == B
    requires summarized.evidence.timeline.Some? && summarized.evidence.timeline.value != []
    ensures var p := Finish(ctx, settings, modelId, accepted, summarized, visual);
      p.Immediate? ==> (p.decision.status == Completed <==> settings.allowDemo && modelId == STUB_MODEL_ID)
                       && (p.decision.status == InsufficientData <==> p.decision.status != Completed)
  {
    hide Ready, SourceQuality, DemoDecision;
    var e := if ctx.source.None? then summarized.evidence
             else summarized.evidence.(quality := SourceQuality(summarized.evidence.quality, visual));
    DemoGiven(ctx, settings, modelId, e, accepted);
    DemoCompletes(ctx, settings, modelId, e, accepted);
  }

  /**
   What is decided at once: the local demonstration's completed decision exactly when it is allowed, the client
   is the deterministic one and there are frames; insufficient data otherwise.
   */
  lemma ImmediateExactly(ctx: SessionContext, b: Buffer, observations: seq<Frame>, settings: Settings, modelId: string,
                         accepted: Acceptance)
    requires Snapshotted(ctx, b, observations)
    ensures var p := Prepare(ctx, observations, b.sourceHits, settings, modelId, accepted);
      p.Immediate? ==>
        (p.decision.status == Completed <==> observations != [] && settings.allowDemo && modelId == STUB_MODEL_ID)
        && (p.decision.status == InsufficientData <==> p.decision.status != Completed)
  {
    hide Frame.Valid, Admissible, HitsKnown, BufferInv, Enumerates, Summarized, Built, Finish, CallsModel, Aoi.WellFormed,
      AoiNamesCatalog, SourceBound, UniqueMatching, MatchingIds, ProductIds;
    DispatchedExactly(ctx, b, observations, settings, modelId, accepted);
    if observations != [] {
      var summarized := Summarized(observations, MappingMetadata(ctx), CatalogOrder(ctx.products), settings.inputVariant);
      var visual := VisualOf(ctx, observations, b.sourceHits);
      if summarized.Ok? && visual.Ok? && !CallsModel(ctx, b, modelId) {
        UncalledIsTimeline(ctx, b, observations, settings.inputVariant, modelId);
        FinishDemo(ctx, settings, modelId, accepted, summarized.value, visual.value);
      }
    }
  }
}
