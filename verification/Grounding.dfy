/**
 End-to-end grounding: whatever the model replies, a decision that passes the gate points back to
 frames that the session accepted and that approved AOIs attribute as the decision claims.
 */
module Grounding {
  import opened Common
  import opened Observations
  import opened Sorting
  import opened RunDecomposition
  import opened SourceAoi
  import opened Ingestion
  import opened Evidence
  import opened EvidenceSummary
  import opened EvidenceFacts
  import opened SourceEvidence
  import opened Snapshots
  import opened Gate
  import opened Completion
  import Aoi = AoiMetadata

  // ----- What aggregation returns, piece by piece -----

  lemma SummarizedParts(observations: seq<Frame>, aoi: Option<Aoi.Metadata>, productIds: seq<string>, input: Variant)
    requires forall f :: f in observations ==> f.Valid()
    requires Summarized(observations, aoi, productIds, input).Ok?
    ensures |observations| <= MAX_TIMELINE && forall f :: f in Ordered(observations) ==> f.Valid()
    ensures var fs := Enriched(Ordered(observations), aoi);
      var e, ids := Summarized(observations, aoi, productIds, input).value.evidence, CatalogIds(productIds, fs);
      && |fs| == |observations|
      && e.variant == (if WindowsOf(fs) == [] then B else input)
      && e.windows == (if e.variant != B then Some(WindowsOf(fs)) else None)
      && e.timeline == (if e.variant != C then Some(fs) else None)
      && e.quality == Quality(Ordered(observations), fs, aoi) && e.summary == Summaries(fs, ids)
      && Summarized(observations, aoi, productIds, input).value.eligible == EligibleIds(fs, ids)
  {
    hide Enriched, CatalogIds, WindowsOf, Summaries, EligibleIds, Quality, Frame.Valid, Ordered;
    OrderedMembers(observations);
  }

  // ----- The hit cache -----

  lemma {:induction false} HitsFromBindings(touched: seq<Bound>, keys: seq<string>, sources: seq<Definition>)
    requires forall k :: k in keys ==> k in GroupKeys(touched)
    requires forall b :: b in touched ==> b.definition in sources
    ensures forall h :: h in HitsOf(touched, keys) ==> Has(sources, h.sourceId)
  {
    if keys != [] {
      HitsFromBindings(touched, keys[1..], sources);
      assert keys[0] in GroupKeys(touched);
      var b :| b in touched && b.definition.sourceId == keys[0];
      assert Has(sources, keys[0]);
    }
  }

  lemma ResolvedKnown(f: Frame, bindings: seq<Bound>, sources: seq<Definition>)
    requires f.Valid() && forall b :: b in bindings ==> b.definition in sources
    ensures forall h :: h in ResolveHits(f, bindings) ==> Has(sources, h.sourceId)
  {
    if f.attention.value.Some? && !f.attention.value.value.outsideVideo {
      var touched := Touched(bindings, f.attention.value.value.point.value, f.videoTime);
      TouchedIs(bindings, f.attention.value.value.point.value, f.videoTime);
      var keys := Sort(StringLess, GroupKeys(touched));
      SortMembers(StringLess, GroupKeys(touched));
      HitsFromBindings(touched, keys, sources);
    }
  }

  /** The stored hit cache names only source AOIs of the session's metadata. */
  lemma CacheKnown(ctx: SessionContext, b: Buffer)
    requires ContextValid(ctx) && BufferInv(ctx, b) && ctx.source.Some?
    ensures HitsKnown(b.sourceHits, ctx.source.value.sources)
  {
    hide ResolveHits, Has, OffsetsForward, VideoTimeForward, LastVideoTimes, BatchTables, Indexed, HighestEpoch;
    forall k | k in b.sourceHits && |b.sourceHits[k]| == 1
      ensures Has(ctx.source.value.sources, b.sourceHits[k][0].sourceId)
    {
      ResolvedKnown(b.observations[k], ctx.bindings, ctx.source.value.sources);
      assert b.sourceHits[k][0] in b.sourceHits[k];
    }
  }

  // ----- Source path -----

  lemma {:induction false} NoLabelsNoRuns(t: RunDecomposition.Track, n: nat)
    requires t.Valid() && n <= |t.labels| && forall i :: 0 <= i < n ==> t.labels[i].None?
    ensures RunsOf(t, n) == []
  {
    if n > 0 {
      NoLabelsNoRuns(t, n - 1);
    }
  }

  /** Without AOI metadata nothing maps, so there are no windows. */
  lemma NoMetadataNoWindows(ordered: seq<Frame>)
    requires |ordered| <= MAX_TIMELINE && forall f :: f in ordered ==> f.Valid()
    ensures WindowsOf(Enriched(ordered, None)) == []
    ensures forall f :: f in Enriched(ordered, None) ==> Aoi.MappedProduct(f).None?
  {
    hide Frame.Valid, Aoi.MapFrame;
    var fs := Enriched(ordered, None);
    NoLabelsNoRuns(Evidence.TrackOf(fs), |fs|);
  }

  /** The setting of every theorem below: one snapshot of one reachable session. */
  ghost predicate Snapshotted(ctx: SessionContext, b: Buffer, observations: seq<Frame>) {
    && ContextValid(ctx) && BufferInv(ctx, b) && Enumerates(observations, b.observations)
    && (forall o :: o in observations ==> o.Valid() && Admissible(ctx, o))
    && (ctx.source.Some? ==> HitsKnown(b.sourceHits, ctx.source.value.sources))
  }

  lemma SnapshotHolds(ctx: SessionContext, b: Buffer, observations: seq<Frame>)
    requires ContextValid(ctx) && BufferInv(ctx, b) && Enumerates(observations, b.observations)
    ensures Snapshotted(ctx, b, observations)
  {
    hide Indexed, HighestEpoch, BatchTables, OffsetsForward, VideoTimeForward, LastVideoTimes, SourceHits, HitsKnown,
      ContextValid, Frame.Valid, Admissible;
    if ctx.source.Some? {
      CacheKnown(ctx, b);
    }
  }

  /** `begin_completion` on that snapshot hands `request` to the model. */
  ghost predicate Dispatches(ctx: SessionContext, b: Buffer, observations: seq<Frame>, settings: Settings,
                             modelId: string, request: Request)
  {
    && Snapshotted(ctx, b, observations)
    && exists accepted :: Prepare(ctx, observations, b.sourceHits, settings, modelId, accepted) == Dispatch(request)
  }

  /** What a dispatched request consists of. */
  lemma DispatchParts(ctx: SessionContext, b: Buffer, observations: seq<Frame>, settings: Settings, modelId: string,
                      request: Request)
    requires Dispatches(ctx, b, observations, settings, modelId, request)
    ensures request.products == ctx.products && observations != []
    ensures forall o :: o in observations ==> o.Valid() && Admissible(ctx, o)
    ensures Summarized(observations, MappingMetadata(ctx), CatalogOrder(ctx.products), settings.inputVariant).Ok?
    ensures var summarized :=
        Summarized(observations, MappingMetadata(ctx), CatalogOrder(ctx.products), settings.inputVariant).value;
      && request.evidence.variant == summarized.evidence.variant
      && request.evidence.windows == summarized.evidence.windows
      && request.evidence.timeline == summarized.evidence.timeline
      && request.evidence.summary == summarized.evidence.summary
      && request.evidence.quality.gazeValid == summarized.evidence.quality.gazeValid
      && Ready(ctx, Snapshot(request.evidence, summarized.eligible), request.source, modelId)
    ensures request.matching == if request.source.Some? then ctx.matching else None
    ensures request.source.Some? ==> ctx.source.Some?
  {
    hide Summarized, Built, HitsKnown, Frame.Valid, BufferInv, ContextValid, Enumerates, Admissible;
  }

  lemma DispatchVisual(ctx: SessionContext, b: Buffer, observations: seq<Frame>, settings: Settings, modelId: string,
                       request: Request)
    requires Dispatches(ctx, b, observations, settings, modelId, request) && ctx.source.Some?
    ensures HitsKnown(b.sourceHits, ctx.source.value.sources)
    ensures Built(observations, b.sourceHits, ctx.source.value.sources) == Ok(request.source)
  {
    hide Summarized, Built, HitsKnown, Frame.Valid, BufferInv, ContextValid, Enumerates, Admissible;
  }

  /** A request on a session with source metadata is always a variant-B request. */
  lemma SourcePathIsVariantB(ctx: SessionContext, b: Buffer, observations: seq<Frame>, settings: Settings,
                             modelId: string, request: Request)
    requires Dispatches(ctx, b, observations, settings, modelId, request) && ctx.source.Some?
    ensures request.evidence.variant == B && request.Windows() == []
  {
    hide Dispatches, Summarized, Frame.Valid, WindowsOf, Enriched, Admissible, Ready, CatalogIds, Summaries, Quality;
    DispatchParts(ctx, b, observations, settings, modelId, request);
    SummarizedParts(observations, None, CatalogOrder(ctx.products), settings.inputVariant);
    OrderedMembers(observations);
    NoMetadataNoWindows(Ordered(observations));
  }

  // ----- Grounding of one reference -----

  /** Some accepted frame with that id hits exactly one source AOI. */
  ghost predicate SourceFrame(ctx: SessionContext, observations: seq<Frame>, id: string) {
    exists f, source :: f in observations && f.frameId == id && HitsOnly(f, ctx.bindings, source)
  }

  /** Some accepted frame with that id is one that approved AOIs put on `product` alone. */
  ghost predicate AoiFrame(ctx: SessionContext, observations: seq<Frame>, id: string, product: string, code: EvidenceCode) {
    exists f :: f in observations && f.frameId == id && ctx.aoi.Some? && Aoi.Hits(f, ctx.aoi.value, product)
      && Supports(f, code)
  }

  /** What the frame's derived facts must say for it to support a claim of this kind. */
  predicate Supports(f: Frame, code: EvidenceCode) {
    && (code == ReturnCandidate ==> f.derived.value.Some? && f.derived.value.value.returnCandidate == Some(true))
    && (code == GazeMovement ==> f.derived.value.Some? && f.derived.value.value.movement.Some?)
    && (code == FaceActionChange ==>
      && f.derived.value.Some? && f.derived.value.value.expression.Some?
      && f.derived.value.value.expression.value.scoreChanges.Some?)
  }

  /**
   The window is a run of consecutive accepted frames without a discontinuity, which approved AOIs put
   on its product alone, and which cannot be extended; its codes are what the frames up to its end say.
   */
  ghost predicate GroundedRun(ctx: SessionContext, raw: seq<Frame>, fs: seq<Frame>, w: Window, start: nat, end: nat) {
    && start <= end < |raw| == |fs| && ctx.aoi.Some?
    && (forall i :: start <= i <= end ==> Aoi.Hits(raw[i], ctx.aoi.value, w.productId))
    && (forall i :: start < i <= end ==> !BreakAt(raw, i))
    && (start == 0 || BreakAt(raw, start) || !Aoi.Hits(raw[start - 1], ctx.aoi.value, w.productId))
    && (end + 1 == |raw| || BreakAt(raw, end + 1) || !Aoi.Hits(raw[end + 1], ctx.aoi.value, w.productId))
    && w.startOffset == raw[start].sessionOffset && w.endOffset == raw[end].sessionOffset
    && w.videoStart == raw[start].videoTime && w.videoEnd == raw[end].videoTime && w.epoch == raw[start].epoch
    && w.codes == CodesAt(fs, end + 1, w.productId)
  }

  ghost predicate GroundedWindow(ctx: SessionContext, observations: seq<Frame>, w: Window)
    requires forall o :: o in observations ==> o.Valid()
  {
    && (forall f :: f in Ordered(observations) ==> f in observations && f.Valid())
    && exists start, end ::
      GroundedRun(ctx, Ordered(observations), Enriched(Ordered(observations), MappingMetadata(ctx)), w, start, end)
  }

  ghost predicate RefGrounded(ctx: SessionContext, observations: seq<Frame>, request: Request, product: string,
                              code: EvidenceCode, ref: Ref)
    requires forall o :: o in observations ==> o.Valid()
  {
    if request.source.Some? then
      ref.kind == FrameRef && SourceFrame(ctx, observations, ref.refId)
    else if request.evidence.variant == B then
      && ref.kind == FrameRef && (exists f :: f in observations && f.frameId == ref.refId)
      && (AoiFrame(ctx, observations, ref.refId, product, code)
          || (request.LowSignal() && (code == DataQualityCode || code == ProductTagMatch)))
    else
      && ref.kind == WindowRef
      && (exists w :: w in request.Windows() && w.windowId == ref.refId && w.productId == product
                      && (code in w.codes || code == ProductTagMatch || code == DataQualityCode) && GroundedWindow(ctx, observations, w))
  }

  // ----- Windows -----

  lemma EnrichedBreaks(raw: seq<Frame>, aoi: Option<Aoi.Metadata>, i: nat)
    requires (forall f :: f in raw ==> f.Valid()) && i < |raw|
    ensures BreakAt(Enriched(raw, aoi), i) == BreakAt(raw, i)
  {
    hide Frame.Valid, Aoi.MapFrame;
  }

  lemma EnrichedHits(raw: seq<Frame>, aoi: Option<Aoi.Metadata>, i: nat, product: string)
    requires (forall f :: f in raw ==> f.Valid()) && i < |raw|
    requires raw[i].attention.value.Some? ==> raw[i].attention.value.value.candidates == []
    ensures Aoi.MappedProduct(Enriched(raw, aoi)[i]) == Some(product) <==> aoi.Some? && Aoi.Hits(raw[i], aoi.value, product)
  {
    assert raw[i] in raw;
    if aoi.Some? {
      Aoi.MappedProductGrounded(raw[i], aoi.value, product);
    }
  }

  /** The product run behind window `k`. */
  ghost predicate ShowsRun(fs: seq<Frame>, w: Window, start: nat, end: nat) {
    && ProductRun(fs, start, end, w.productId)
    && w.startOffset == fs[start].sessionOffset && w.endOffset == fs[end].sessionOffset
    && w.videoStart == fs[start].videoTime && w.videoEnd == fs[end].videoTime && w.epoch == fs[start].epoch
    && w.codes == CodesAt(fs, end + 1, w.productId)
  }

  /** A product run of the enriched frames is a grounded run of the accepted ones. */
  lemma RunGrounded(ctx: SessionContext, raw: seq<Frame>, w: Window, start: nat, end: nat)
    requires (forall f :: f in raw ==> f.Valid()) && ctx.source.None?
    requires forall f :: f in raw && f.attention.value.Some? ==> f.attention.value.value.candidates == []
    requires ShowsRun(Enriched(raw, ctx.aoi), w, start, end)
    ensures GroundedRun(ctx, raw, Enriched(raw, ctx.aoi), w, start, end)
  {
    hide Frame.Valid, Aoi.MapFrame, BreakAt, Aoi.Hits, Aoi.MappedProduct, CodesAt;
    var fs := Enriched(raw, ctx.aoi);
    forall i | 0 <= i < |raw|
      ensures BreakAt(fs, i) == BreakAt(raw, i)
      ensures Aoi.MappedProduct(fs[i]) == Some(w.productId) <==>
        ctx.aoi.Some? && Aoi.Hits(raw[i], ctx.aoi.value, w.productId)
    {
      EnrichedBreaks(raw, ctx.aoi, i);
      EnrichedHits(raw, ctx.aoi, i, w.productId);
    }
    assert Aoi.MappedProduct(fs[start]) == Some(w.productId);
  }

  lemma WindowCodes(fs: seq<Frame>, k: nat)
    requires |fs| <= MAX_TIMELINE && k < |WindowsOf(fs)|
    ensures var rs := RunsOf(Evidence.TrackOf(fs), |fs|);
      rs[k].start <= rs[k].end < |fs| && WindowsOf(fs)[k].codes == CodesAt(fs, rs[k].end + 1, rs[k].name)
      && WindowsOf(fs)[k].productId == rs[k].name
  {
    hide RunsOf, Evidence.TrackOf, CodesAt, ComponentsOf, TagsOf, WindowId, Pow10;
    RunsFit(fs);
    var rs := RunsOf(Evidence.TrackOf(fs), |fs|);
    assert rs[k] in rs;
  }

  lemma WindowShowsRun(fs: seq<Frame>, k: nat) returns (start: nat, end: nat)
    requires |fs| <= MAX_TIMELINE && k < |WindowsOf(fs)|
    ensures ShowsRun(fs, WindowsOf(fs)[k], start, end)
  {
    hide WindowsOf, RunsOf, Evidence.TrackOf, ProductRun, CodesAt, InOrder;
    var rs := RunsOf(Evidence.TrackOf(fs), |fs|);
    WindowCodes(fs, k);
    WindowsAreProductRuns(fs);
    start, end := rs[k].start, rs[k].end;
  }

  lemma WindowGrounded(ctx: SessionContext, raw: seq<Frame>, w: Window) returns (start: nat, end: nat)
    requires (forall f :: f in raw ==> f.Valid()) && ctx.source.None? && |raw| <= MAX_TIMELINE
    requires forall f :: f in raw && f.attention.value.Some? ==> f.attention.value.value.candidates == []
    requires w in WindowsOf(Enriched(raw, ctx.aoi))
    ensures GroundedRun(ctx, raw, Enriched(raw, ctx.aoi), w, start, end)
  {
    hide Frame.Valid, WindowsOf, ProductRun, CodesAt, GroundedRun, ShowsRun;
    var fs := Enriched(raw, ctx.aoi);
    var k :| 0 <= k < |WindowsOf(fs)| && WindowsOf(fs)[k] == w;
    start, end := WindowShowsRun(fs, k);
    RunGrounded(ctx, raw, w, start, end);
  }

  // ----- The theorem, path by path -----

  lemma OrderedAdmissible(ctx: SessionContext, observations: seq<Frame>)
    requires forall o :: o in observations ==> o.Valid() && Admissible(ctx, o)
    ensures forall f :: f in Ordered(observations) ==> f in observations && f.Valid()
    ensures forall f :: f in Ordered(observations) && f.attention.value.Some? ==> f.attention.value.value.candidates == []
  {
    hide Frame.Valid;
    OrderedMembers(observations);
    forall f | f in Ordered(observations) && f.attention.value.Some?
      ensures f.attention.value.value.candidates == []
    {
      assert f in observations;
    }
  }

  lemma WindowRefGrounded(ctx: SessionContext, b: Buffer, observations: seq<Frame>, settings: Settings, modelId: string,
                          request: Request, product: string, code: EvidenceCode, ref: Ref)
    requires Dispatches(ctx, b, observations, settings, modelId, request)
    requires request.source.None? && request.evidence.variant != B
    requires RefAdmitted(request, product, code, ref)
    ensures forall o :: o in observations ==> o.Valid()
    ensures RefGrounded(ctx, observations, request, product, code, ref)
  {
    hide Dispatches, Summarized, Frame.Valid, WindowsOf, Enriched, Admissible, Ready, CatalogIds, Summaries, Quality,
      GroundedRun, Ordered, LastWindow;
    if ctx.source.Some? {
      SourcePathIsVariantB(ctx, b, observations, settings, modelId, request);
    }
    DispatchParts(ctx, b, observations, settings, modelId, request);
    SummarizedParts(observations, MappingMetadata(ctx), CatalogOrder(ctx.products), settings.inputVariant);
    OrderedAdmissible(ctx, observations);
    var w := LastWindow(request.Windows(), ref.refId).value;
    var start, end := WindowGrounded(ctx, Ordered(observations), w);
    assert GroundedWindow(ctx, observations, w);
  }

  lemma TimelineFrame(observations: seq<Frame>, aoi: Option<Aoi.Metadata>, f: Frame) returns (raw: Frame)
    requires forall o :: o in Ordered(observations) ==> o in observations && o.Valid()
    requires f in Enriched(Ordered(observations), aoi)
    ensures raw in observations && raw.Valid() && raw.frameId == f.frameId && raw.derived == f.derived
    ensures f == Aoi.Enrich(raw, MappingOf(raw, aoi))
  {
    hide Frame.Valid, Ordered, Aoi.MapFrame;
    var fs := Enriched(Ordered(observations), aoi);
    var i :| 0 <= i < |fs| && fs[i] == f;
    raw := Ordered(observations)[i];
    assert raw in Ordered(observations);
  }

  lemma OneCandidateMapped(f: Frame, product: string)
    requires OneCandidate(f, product)
    ensures Aoi.MappedProduct(f) == Some(product)
  {
  }

  lemma CandidateGrounded(raw: Frame, aoi: Option<Aoi.Metadata>, product: string)
    requires raw.Valid() && (raw.attention.value.Some? ==> raw.attention.value.value.candidates == [])
    requires OneCandidate(Aoi.Enrich(raw, MappingOf(raw, aoi)), product)
    ensures aoi.Some? && Aoi.Hits(raw, aoi.value, product)
  {
    OneCandidateMapped(Aoi.Enrich(raw, MappingOf(raw, aoi)), product);
    if aoi.Some? {
      Aoi.MappedProductGrounded(raw, aoi.value, product);
    }
  }

  lemma FrameRefGrounded(ctx: SessionContext, b: Buffer, observations: seq<Frame>, settings: Settings, modelId: string,
                         request: Request, product: string, code: EvidenceCode, ref: Ref)
    requires Dispatches(ctx, b, observations, settings, modelId, request)
    requires request.source.None? && request.evidence.variant == B
    requires RefAdmitted(request, product, code, ref)
    ensures forall o :: o in observations ==> o.Valid()
    ensures RefGrounded(ctx, observations, request, product, code, ref)
  {
    hide Dispatches, Summarized, Frame.Valid, WindowsOf, Enriched, Ready, CatalogIds, Summaries, Quality,
      Ordered, LastFrame, Aoi.Hits, Aoi.MapFrame, Derives, Supports, OneCandidate;
    DispatchParts(ctx, b, observations, settings, modelId, request);
    SummarizedParts(observations, MappingMetadata(ctx), CatalogOrder(ctx.products), settings.inputVariant);
    OrderedAdmissible(ctx, observations);
    var f := LastFrame(request.Timeline(), ref.refId).value;
    var raw := TimelineFrame(observations, MappingMetadata(ctx), f);
    if OneCandidate(f, product) && Derives(f, code) {
      CandidateGrounded(raw, MappingMetadata(ctx), product);
      SameDerivation(f, raw, code);
      assert AoiFrame(ctx, observations, ref.refId, product, code);
    }
  }

  lemma SameDerivation(a: Frame, b: Frame, code: EvidenceCode)
    requires a.derived == b.derived
    ensures Derives(a, code) == Supports(b, code)
  {
  }

  lemma SingleSourceMeans(ctx: SessionContext, b: Buffer, f: Frame, source: string)
    requires BufferInv(ctx, b) && f.FrameKey() in b.observations && b.observations[f.FrameKey()] == f
    requires SingleSource(b.sourceHits, f) == Some(source)
    ensures HitsOnly(f, ctx.bindings, source)
  {
    hide ResolveHits, HitsOnly, OffsetsForward, VideoTimeForward, LastVideoTimes, BatchTables, Indexed, HighestEpoch,
      Admissible;
    SingleHitMeans(f, ctx.bindings, source);
  }

  lemma GroundedIdSource(e: VisualEvidence, id: string) returns (s: SourceSummary)
    requires id in e.GroundedFrameIds()
    ensures s in e.sources && id in s.frameIds
  {
    s :| s in e.sources && id in s.frameIds;
  }

  lemma ConservedIds(cache: map<Key, seq<Hit>>, fs: seq<Frame>, s: SourceSummary, id: string) returns (f: Frame)
    requires SourceConserves(cache, fs, s) && id in s.frameIds
    ensures f in fs && f.frameId == id && SingleSource(cache, f) == Some(s.sourceId)
  {
    hide SingleSource, CountRuns, SegmentsWith, DwellUpTo;
    f :| f in fs && f.frameId == id && SingleSource(cache, f) == Some(s.sourceId);
  }

  lemma SourceSummaryConserves(observations: seq<Frame>, cache: map<Key, seq<Hit>>, sources: seq<Definition>,
                               s: SourceSummary)
    requires HitsKnown(cache, sources)
    requires Built(observations, cache, sources).Ok? && Built(observations, cache, sources).value.Some?
    requires s in Built(observations, cache, sources).value.value.sources
    ensures SourceConserves(cache, Ordered(observations), s)
  {
    hide Built, SourceConserves, HitsKnown, SumScores, Ordered, UnhitCount;
    SourceEvidenceConserves(observations, cache, sources);
  }

  lemma BufferFrame(ctx: SessionContext, b: Buffer, observations: seq<Frame>, f: Frame)
    requires Snapshotted(ctx, b, observations) && f in Ordered(observations)
    ensures f in observations && BufferInv(ctx, b)
    ensures f.FrameKey() in b.observations && b.observations[f.FrameKey()] == f
  {
    hide BufferInv, ContextValid, Admissible, Frame.Valid, HitsKnown, Ordered;
    OrderedMembers(observations);
  }

  lemma SourceRefGrounded(ctx: SessionContext, b: Buffer, observations: seq<Frame>, settings: Settings, modelId: string,
                          request: Request, id: string)
    requires Dispatches(ctx, b, observations, settings, modelId, request)
    requires request.source.Some? && id in request.source.value.GroundedFrameIds()
    ensures SourceFrame(ctx, observations, id)
  {
    hide Summarized, Built, Prepare, Snapshotted, HitsKnown, SourceConserves, SingleSource, BufferInv, HitsOnly, Ordered,
      Frame.Valid, Admissible, Ready, VisualEvidence.GroundedFrameIds;
    DispatchParts(ctx, b, observations, settings, modelId, request);
    DispatchVisual(ctx, b, observations, settings, modelId, request);
    var s := GroundedIdSource(request.source.value, id);
    SourceSummaryConserves(observations, b.sourceHits, ctx.source.value.sources, s);
    var f := ConservedIds(b.sourceHits, Ordered(observations), s, id);
    BufferFrame(ctx, b, observations, f);
    SingleSourceMeans(ctx, b, f, s.sourceId);
  }

  lemma AnyRefGrounded(ctx: SessionContext, b: Buffer, observations: seq<Frame>, settings: Settings, modelId: string,
                       request: Request, product: string, code: EvidenceCode, ref: Ref)
    requires Dispatches(ctx, b, observations, settings, modelId, request)
    requires RefAdmitted(request, product, code, ref)
    ensures forall o :: o in observations ==> o.Valid()
    ensures RefGrounded(ctx, observations, request, product, code, ref)
  {
    hide Dispatches, Summarized, Frame.Valid, SourceFrame, AoiFrame, GroundedWindow, LastFrame, LastWindow, Ready,
      Admissible, VisualEvidence.GroundedFrameIds, OneCandidate, Derives, Supports;
    DispatchParts(ctx, b, observations, settings, modelId, request);
    if request.source.Some? {
      SourceRefGrounded(ctx, b, observations, settings, modelId, request, ref.refId);
    } else if request.evidence.variant == B {
      FrameRefGrounded(ctx, b, observations, settings, modelId, request, product, code, ref);
    } else {
      WindowRefGrounded(ctx, b, observations, settings, modelId, request, product, code, ref);
    }
  }

  /**
   End-to-end grounding, for any reply and any diagnosis scan: an output that passes the gate names a
   catalog product and only that one, with tags of that product; it claims what its path demands and nothing
   that it excludes; and every reference in it is grounded in accepted frames.
   */
  lemma GatedOutputIsGrounded(ctx: SessionContext, b: Buffer, observations: seq<Frame>, settings: Settings,
                              modelId: string, request: Request, diagnosis: string -> bool, o: Output)
    requires Dispatches(ctx, b, observations, settings, modelId, request)
    requires Admits(request, diagnosis, o)
    ensures forall f :: f in observations ==> f.Valid()
    ensures o.productId in ProductIds(ctx.products)
    ensures Tagged(ctx.products, o.productId, o.style.matchedTags)
    ensures Claims(request, o.productId, o.reasonCodes, o.evidence)
    ensures forall item :: item in o.evidence ==> item.productId == o.productId
    ensures forall item, ref :: item in o.evidence && ref in item.refs ==>
      RefGrounded(ctx, observations, request, o.productId, item.code, ref)
  {
    hide Dispatches, Summarized, Frame.Valid, RefAdmitted, RefGrounded, ProductIds, PathAdmits, TagsControlled, Ready,
      Output.Valid, CatalogAgrees, Admissible, Tagged, Claims, FlagsWithin;
    AdmittedClaims(request, diagnosis, o);
    DispatchParts(ctx, b, observations, settings, modelId, request);
    forall item, ref | item in o.evidence && ref in item.refs
      ensures RefGrounded(ctx, observations, request, o.productId, item.code, ref)
    {
      assert ItemAdmitted(request, o.productId, item);
      AnyRefGrounded(ctx, b, observations, settings, modelId, request, o.productId, item.code, ref);
    }
  }
}
