/**
 The deterministic client (`v2_central.DeterministicCentralStub`), and exactly when its answer passes the
 gate.
 */
module Stub {
  import opened Common
  import opened Observations
  import opened Sorting
  import opened RunDecomposition
  import opened SourceAoi
  import opened Ingestion
  import opened Evidence
  import opened EvidenceSummary
  import opened EvidenceFacts
  import opened SourceEvidence
  import opened Matching
  import opened Snapshots
  import opened Gate
  import opened Completion
  import opened Grounding
  import opened CompletionFacts
  import Aoi = AoiMetadata
  import FeatureFacts

  /** Stands for the client's fixed sentences. */
  const STUB_TEXT := "deterministic client"

  // ----- Source path -----

  datatype Ranked = Ranked(score: nat, values: set<string>, product: MatchingProduct)

  function RankedOf(products: seq<MatchingProduct>, e: VisualEvidence): seq<Ranked> {
    seq(|products|, i requires 0 <= i < |products| =>
      Ranked(SumWorth(AllClaims(products[i].profile, e)), MatchedValues(AllClaims(products[i].profile, e)), products[i]))
  }

  /** Highest score first, then by product id. */
  predicate RankedLess(a: Ranked, b: Ranked) {
    a.score > b.score || (a.score == b.score && StringLess(a.product.productId, b.product.productId))
  }

  function Keep(tags: seq<string>, allowed: set<string>): (kept: seq<string>)
    ensures forall t :: t in kept <==> t in tags && t in allowed
    ensures Distinct(tags) ==> Distinct(kept)
  {
    if tags == [] then []
    else
      assert tags == [tags[0]] + tags[1..];
      (if tags[0] in allowed then [tags[0]] else []) + Keep(tags[1..], allowed)
  }

  function TagsFor(profile: Product, r: Ranked): seq<string> {
    var matched := Keep(profile.controlledTags, r.values);
    if matched != [] then matched
    else
      var shared := Keep(profile.controlledTags, set t | t in r.product.controlledTags);
      if shared == [] then [] else shared[..1]
  }

  function TendencyFor(count: nat): Tendency {
    if count == 1 then FocusedSingleProduct else if count <= 3 then ComparativeExploration else BroadExploration
  }

  function FrameIdList(ss: seq<SourceSummary>): seq<string> {
    if ss == [] then [] else FrameIdList(ss[..|ss| - 1]) + ss[|ss| - 1].frameIds
  }

  /** `sorted(source_evidence.grounded_frame_ids)` */
  function SortedGroundedIds(e: VisualEvidence): seq<string> {
    SortedSet(FrameIdList(e.sources))
  }

  function Answer(product: string, evidence: seq<Item>, tags: seq<string>, count: nat): Output {
    Output(product, STUB_TEXT, [ObservedAttentionLead, CatalogTagAlignment], evidence, Style(tags, STUB_TEXT),
           TendencyFor(count))
  }

  function SourceItems(product: string, frameId: string): seq<Item> {
    [Item(ObservedAttention, product, [Ref(FrameRef, frameId)], STUB_TEXT),
     Item(ProductTagMatch, product, [Ref(FrameRef, frameId)], STUB_TEXT)]
  }

  function RecommendFromSource(request: Request, e: VisualEvidence): Option<Output> {
    var ranked := Sort(RankedLess, RankedOf(request.MatchingProducts(), e));
    if ranked == [] || ranked[0].score == 0 then None
    else
      var profile := ProfileOf(request.products, ranked[0].product.productId);
      if profile.None? then None
      else
        var tags := TagsFor(profile.value, ranked[0]);
        var ids := SortedGroundedIds(e);
        if tags == [] || ids == [] then None
        else
          Some(Answer(profile.value.productId, SourceItems(profile.value.productId, ids[0]), tags, |e.sources|))
  }

  // ----- Legacy path -----

  function GazeSignals(summary: seq<ProductSummary>): (kept: seq<ProductSummary>)
    ensures forall s :: s in kept <==> s in summary && s.gaze.Some? && s.gaze.value.validCount > 0
  {
    if summary == [] then []
    else
      assert summary == [summary[0]] + summary[1..];
      (if summary[0].gaze.Some? && summary[0].gaze.value.validCount > 0 then [summary[0]] else [])
      + GazeSignals(summary[1..])
  }

  function ValidCount(s: ProductSummary): nat {
    if s.gaze.Some? then s.gaze.value.validCount else 0
  }

  function AttentionMs(s: ProductSummary): real {
    if s.gaze.Some? then s.gaze.value.attentionMs else 0.0
  }

  function ReturnsOf(s: ProductSummary): nat {
    if s.gaze.Some? && s.gaze.value.returnCandidates.Some? then s.gaze.value.returnCandidates.value else 0
  }

  /** Most gaze first, then most attention, then most returns, then by product id. */
  predicate SignalLess(a: ProductSummary, b: ProductSummary) {
    if ValidCount(a) != ValidCount(b) then ValidCount(a) > ValidCount(b)
    else if AttentionMs(a) != AttentionMs(b) then AttentionMs(a) > AttentionMs(b)
    else if ReturnsOf(a) != ReturnsOf(b) then ReturnsOf(a) > ReturnsOf(b)
    else StringLess(a.productId, b.productId)
  }

  function CandidateFrames(frames: seq<Frame>, product: string): (kept: seq<Frame>)
    ensures forall f :: f in kept <==> f in frames && OneCandidate(f, product)
  {
    if frames == [] then []
    else
      assert frames == [frames[0]] + frames[1..];
      (if OneCandidate(frames[0], product) then [frames[0]] else []) + CandidateFrames(frames[1..], product)
  }

  function WindowsFor(windows: seq<Window>, product: string): (kept: seq<Window>)
    ensures forall w :: w in kept <==> w in windows && w.productId == product
  {
    if windows == [] then []
    else
      assert windows == [windows[0]] + windows[1..];
      (if windows[0].productId == product then [windows[0]] else []) + WindowsFor(windows[1..], product)
  }

  function RecommendFromSignals(request: Request): Option<Output> {
    var signals := GazeSignals(request.evidence.summary);
    if signals == [] then None
    else
      SortElements(SignalLess, signals);
      var signal := Sort(SignalLess, signals)[0];
      var profile := ProfileOf(request.products, signal.productId);
      if profile.None? then None
      else
        var tag := if profile.value.controlledTags == [] then "observed" else profile.value.controlledTags[0];
        var ref := if request.evidence.variant == B then
                     var frames := CandidateFrames(request.Timeline(), signal.productId);
                     if frames == [] then None else Some(Ref(FrameRef, frames[0].frameId))
                   else
                     var windows := WindowsFor(request.Windows(), signal.productId);
                     if windows == [] then None else Some(Ref(WindowRef, windows[0].windowId));
        if ref.None? then None
        else
          Some(Answer(signal.productId, [Item(ObservedAttention, signal.productId, [ref.value], STUB_TEXT)], [tag],
                      |signals|))
  }

  /** `recommend`; `None` is the sanitised error "invalid_model_output". */
  function Recommend(request: Request): Option<Output> {
    if request.source.Some? then RecommendFromSource(request, request.source.value) else RecommendFromSignals(request)
  }

  // ----- What the gate makes of it -----

  /** The last timeline frame with the referenced id maps to the product by exactly one candidate. */
  predicate Resolves(request: Request, product: string, id: string) {
    && LastFrame(request.Timeline(), id).Some?
    && OneCandidate(LastFrame(request.Timeline(), id).value, product)
  }

  lemma WindowIdsDistinct(fs: seq<Frame>, j: nat, k: nat)
    requires |fs| <= MAX_TIMELINE && j < |WindowsOf(fs)| && k < |WindowsOf(fs)|
    requires WindowsOf(fs)[j].windowId == WindowsOf(fs)[k].windowId
    ensures j == k
  {
    hide RunsOf, Evidence.TrackOf, WindowOf, WindowId;
    RunsFit(fs);
    hide Pow10;
    WindowIdInjective(j + 1, k + 1);
  }

  /** The gate's dictionary finds the very window that was referenced. */
  lemma WindowFound(fs: seq<Frame>, w: Window)
    requires |fs| <= MAX_TIMELINE && w in WindowsOf(fs)
    ensures LastWindow(WindowsOf(fs), w.windowId) == Some(w)
  {
    hide WindowsOf, LastWindow;
    var ws := WindowsOf(fs);
    var found := LastWindow(ws, w.windowId);
    var j :| 0 <= j < |ws| && ws[j] == w;
    var k :| 0 <= k < |ws| && ws[k] == found.value;
    WindowIdsDistinct(fs, j, k);
  }

  lemma {:induction false} SomeGaze(fs: seq<Frame>) returns (f: Frame)
    requires CountGaze(fs) > 0
    ensures f in fs && f.gaze.value.Some?
  {
    f := fs[|fs| - 1];
    if f.gaze.value.None? {
      f := SomeGaze(fs[..|fs| - 1]);
    }
  }

  /** An eligible product has a window, and the window carries "observed_attention". */
  lemma EligibleHasWindow(fs: seq<Frame>, p: string) returns (w: Window)
    requires |fs| <= MAX_TIMELINE && Eligible(fs, p)
    ensures w in WindowsOf(fs) && w.productId == p && ObservedAttention in w.codes && CountGaze(fs) > 0
  {
    hide Aoi.MappedProduct, RunsOf, Evidence.TrackOf, WindowsOf, CountGaze;
    FramesOfAre(fs, |fs|, p);
    var f := SomeGaze(FramesOf(fs, |fs|, p));
    assert fs[..|fs|] == fs;
    var i :| 0 <= i < |fs| && fs[i] == f;
    GazeCounted(fs, f);
    var t := Evidence.TrackOf(fs);
    var r := RunCovers(t, |fs|, i);
    var k :| 0 <= k < |RunsOf(t, |fs|)| && RunsOf(t, |fs|)[k] == r;
    SameCount(fs);
    WindowCodes(fs, k);
    w := WindowsOf(fs)[k];
    CarriesAttention(fs, r.end + 1, p);
  }

  lemma SameCount(fs: seq<Frame>)
    requires |fs| <= MAX_TIMELINE
    ensures |WindowsOf(fs)| == |RunsOf(Evidence.TrackOf(fs), |fs|)|
  {
  }

  lemma CarriesAttention(fs: seq<Frame>, n: nat, p: string)
    requires n <= |fs|
    ensures ObservedAttention in CodesAt(fs, n, p)
  {
  }

  lemma ProfileFound(products: seq<Product>, id: string)
    ensures id in ProductIds(products) ==> ProfileOf(products, id).Some?
  {
    KnownProduct(products, id);
  }

  lemma ChosenSignal(request: Request)
    requires GazeSignals(request.evidence.summary) != []
    ensures |Sort(SignalLess, GazeSignals(request.evidence.summary))| > 0
    ensures Sort(SignalLess, GazeSignals(request.evidence.summary))[0].productId in EligibleProducts(request.evidence)
  {
    hide SignalLess;
    var signals := GazeSignals(request.evidence.summary);
    SortElements(SignalLess, signals);
    SortMembers(SignalLess, signals);
    assert Sort(SignalLess, signals)[0] in signals;
  }

  /** Everything the gate asks of a legacy answer except its reference. */
  lemma LegacyAnswer(request: Request, diagnosis: string -> bool, o: Output)
    requires request.source.None? && RecommendFromSignals(request) == Some(o) && !diagnosis(CombinedText(o))
    requires !request.LowSignal()
    requires forall p :: p in request.products ==> p.Valid()
    ensures |o.evidence| == 1 && |o.evidence[0].refs| == 1 && o.productId in EligibleProducts(request.evidence)
    ensures Admits(request, diagnosis, o) <==> RefAdmitted(request, o.productId, ObservedAttention, o.evidence[0].refs[0])
  {
    hide CombinedText, LastFrame, LastWindow, OneCandidate, EligibleProducts, ProductIds, GazeSignals, CandidateFrames,
      WindowsFor, SignalLess, RefAdmitted;
    ChosenSignal(request);
    KnownProduct(request.products, o.productId);
    var item := o.evidence[0];
    assert item.refs[0] in item.refs && item in o.evidence;
    assert o.style.matchedTags[0] in o.style.matchedTags;
    assert ProfileOf(request.products, o.productId).value.Valid();
    assert forall ref :: ref in item.refs ==> ref == item.refs[0];
    assert forall other :: other in o.evidence ==> other == item;
  }

  /** The legacy parts of a dispatched request. */
  ghost predicate LegacyRequest(request: Request, fs: seq<Frame>, ids: seq<string>) {
    && request.source.None? && |fs| <= MAX_TIMELINE
    && request.evidence.summary == Summaries(fs, ids)
    && request.evidence.windows == (if request.evidence.variant != B then Some(WindowsOf(fs)) else None)
    && request.evidence.timeline == (if request.evidence.variant != C then Some(fs) else None)
    && (CountGaze(fs) > 0 ==> request.evidence.quality.gazeValid > 0.0)
    && (forall id :: id in ids <==> id in ProductIds(request.products))
    && (forall p :: p in request.products ==> p.Valid())
    && (request.evidence.variant != B ==> EligibleIds(fs, ids) != {})
  }

  lemma RatioOfGaze(ordered: seq<Frame>, fs: seq<Frame>, aoi: Option<Aoi.Metadata>)
    requires forall f :: f in ordered ==> f.Valid()
    ensures CountGaze(fs) > 0 ==> Quality(ordered, fs, aoi).gazeValid > 0.0
  {
    hide Quality, CountGaze;
    if CountGaze(fs) > 0 {
      QualityGaze(ordered, fs, aoi);
    }
  }

  lemma ReadyMeansEligible(ctx: SessionContext, snapshot: Snapshot, visual: Option<VisualEvidence>, modelId: string)
    requires Ready(ctx, snapshot, visual, modelId) && ctx.source.None? && snapshot.evidence.variant != B
    ensures snapshot.eligible != {}
  {
  }

  lemma DispatchedLegacy(ctx: SessionContext, b: Buffer, observations: seq<Frame>, settings: Settings, modelId: string,
                         request: Request) returns (fs: seq<Frame>, ids: seq<string>)
    requires Dispatches(ctx, b, observations, settings, modelId, request) && request.source.None?
    ensures LegacyRequest(request, fs, ids)
  {
    hide Dispatches, Summarized, Frame.Valid, Admissible, Ordered, Enriched, Quality, WindowsOf, CatalogIds, Summaries,
      EligibleIds, Ready, ProductIds, CountGaze, ContextValid, CatalogOrder;
    DispatchParts(ctx, b, observations, settings, modelId, request);
    SummarizedParts(observations, MappingMetadata(ctx), CatalogOrder(ctx.products), settings.inputVariant);
    fs := Enriched(Ordered(observations), MappingMetadata(ctx));
    ids := CatalogIds(CatalogOrder(ctx.products), fs);
    DispatchContext(ctx, b, observations, settings, modelId, request);
    CatalogFits(ctx, fs);
    RatioOfGaze(Ordered(observations), fs, MappingMetadata(ctx));
    if request.evidence.variant != B {
      if ctx.source.Some? {
        SourcePathIsVariantB(ctx, b, observations, settings, modelId, request);
      }
      ReadyMeansEligible(ctx, Snapshot(request.evidence, EligibleIds(fs, ids)), request.source, modelId);
    }
    CatalogTags(ctx);
  }

  lemma DispatchContext(ctx: SessionContext, b: Buffer, observations: seq<Frame>, settings: Settings, modelId: string,
                        request: Request)
    requires Dispatches(ctx, b, observations, settings, modelId, request)
    ensures ContextValid(ctx)
  {
    hide Prepare, BufferInv, Enumerates, Frame.Valid, Admissible, HitsKnown, ContextValid;
  }

  lemma CatalogTags(ctx: SessionContext)
    requires ContextValid(ctx)
    ensures forall p :: p in ctx.products ==> p.Valid()
    ensures forall p, q :: p in ctx.products && q in ctx.products && p.productId == q.productId ==> p == q
  {
    hide Aoi.WellFormed, AoiNamesCatalog, SourceBound, MatchingIds, UniqueMatching, ProductIds;
  }

  lemma SignalIsEligible(request: Request, fs: seq<Frame>, ids: seq<string>, product: string)
    requires LegacyRequest(request, fs, ids) && product in EligibleProducts(request.evidence)
    ensures Eligible(fs, product) && product in ids
  {
    hide Summaries, WindowsOf, EligibleProducts, Eligible, CountGaze;
    EligibleProductsAre(fs, ids, request.evidence);
  }

  /** A request with some eligible product is not a low-signal one. */
  lemma SignalsMeanGaze(request: Request, fs: seq<Frame>, ids: seq<string>)
    requires LegacyRequest(request, fs, ids) && EligibleProducts(request.evidence) != {}
    ensures !request.LowSignal()
  {
    hide Summaries, WindowsOf, EligibleProducts, Eligible, CountGaze, EligibleIds;
    var p :| p in EligibleProducts(request.evidence);
    SignalIsEligible(request, fs, ids, p);
    var w := EligibleHasWindow(fs, p);
  }

  lemma SignalsExist(request: Request)
    ensures GazeSignals(request.evidence.summary) != [] <==> EligibleProducts(request.evidence) != {}
  {
    var signals := GazeSignals(request.evidence.summary);
    if signals != [] {
      assert signals[0] in signals;
      assert signals[0].productId in EligibleProducts(request.evidence);
    }
    if EligibleProducts(request.evidence) != {} {
      var p :| p in EligibleProducts(request.evidence);
      var s :| s in request.evidence.summary && s.gaze.Some? && s.gaze.value.validCount > 0 && s.productId == p;
      assert s in signals;
    }
  }

  lemma AnswerExists(request: Request, fs: seq<Frame>, ids: seq<string>)
    requires LegacyRequest(request, fs, ids) && request.evidence.variant != B
    ensures RecommendFromSignals(request).Some?
  {
    hide Summaries, WindowsOf, EligibleProducts, Eligible, CountGaze, EligibleIds, GazeSignals, SignalLess, ProductIds,
      WindowsFor, CandidateFrames, ProfileOf;
    EligibleProductsAre(fs, ids, request.evidence);
    SignalsExist(request);
    ChosenSignal(request);
    var p := Sort(SignalLess, GazeSignals(request.evidence.summary))[0].productId;
    SignalIsEligible(request, fs, ids, p);
    ProfileFound(request.products, p);
    var w := EligibleHasWindow(fs, p);
    assert w in WindowsFor(request.Windows(), p);
  }

  lemma AnswerRef(request: Request, o: Output)
    requires RecommendFromSignals(request) == Some(o)
    ensures |o.evidence| == 1 && |o.evidence[0].refs| == 1
    ensures var ref := o.evidence[0].refs[0];
      if request.evidence.variant == B then
        ref.kind == FrameRef
        && exists f :: f in request.Timeline() && f.frameId == ref.refId && OneCandidate(f, o.productId)
      else
        ref.kind == WindowRef
        && exists w :: w in request.Windows() && w.windowId == ref.refId && w.productId == o.productId
    ensures GazeSignals(request.evidence.summary) != []
  {
    hide GazeSignals, SignalLess, ProfileOf, OneCandidate, CandidateFrames, WindowsFor;
    var frames := CandidateFrames(request.Timeline(), o.productId);
    var windows := WindowsFor(request.Windows(), o.productId);
    assert frames != [] ==> frames[0] in frames;
    assert windows != [] ==> windows[0] in windows;
  }

  lemma AllWindowsCarryAttention(fs: seq<Frame>, w: Window)
    requires |fs| <= MAX_TIMELINE && w in WindowsOf(fs)
    ensures ObservedAttention in w.codes
  {
    hide WindowsOf, RunsOf, Evidence.TrackOf, CodesAt;
    SameCount(fs);
    var k :| 0 <= k < |WindowsOf(fs)| && WindowsOf(fs)[k] == w;
    WindowCodes(fs, k);
    CarriesAttention(fs, RunsOf(Evidence.TrackOf(fs), |fs|)[k].end + 1, w.productId);
  }

  /** The window reference of an A/C answer is admitted. */
  lemma WindowAnswerAdmitted(request: Request, fs: seq<Frame>, ids: seq<string>, product: string, ref: Ref)
    requires LegacyRequest(request, fs, ids) && request.evidence.variant != B && ref.kind == WindowRef
    requires exists w :: w in request.Windows() && w.windowId == ref.refId && w.productId == product
    ensures RefAdmitted(request, product, ObservedAttention, ref)
  {
    hide Summaries, WindowsOf, EligibleIds, CountGaze, LastWindow, ProductIds;
    var w :| w in request.Windows() && w.windowId == ref.refId && w.productId == product;
    WindowFound(fs, w);
    AllWindowsCarryAttention(fs, w);
  }

  /**
   On every A/C request that `begin_completion` builds on the legacy path, the deterministic client
   answers, and its answer passes the gate.
   */
  lemma StubPassesWithWindows(ctx: SessionContext, b: Buffer, observations: seq<Frame>, settings: Settings,
                              modelId: string, request: Request, diagnosis: string -> bool)
    requires Dispatches(ctx, b, observations, settings, modelId, request)
    requires request.source.None? && request.evidence.variant != B
    requires forall o :: Recommend(request) == Some(o) ==> !diagnosis(CombinedText(o))
    ensures Recommend(request).Some? && Admits(request, diagnosis, Recommend(request).value)
  {
    hide Dispatches, RecommendFromSignals, LegacyRequest, Admits, RefAdmitted, CombinedText, EligibleProducts, GazeSignals;
    var fs, ids := DispatchedLegacy(ctx, b, observations, settings, modelId, request);
    AnswerExists(request, fs, ids);
    var o := Recommend(request).value;
    AnswerRef(request, o);
    SignalsExist(request);
    SignalsMeanGaze(request, fs, ids);
    RequestTags(request, fs, ids);
    LegacyAnswer(request, diagnosis, o);
    WindowAnswerAdmitted(request, fs, ids, o.productId, o.evidence[0].refs[0]);
  }

  lemma RequestTags(request: Request, fs: seq<Frame>, ids: seq<string>)
    requires LegacyRequest(request, fs, ids)
    ensures forall p :: p in request.products ==> p.Valid()
  {
  }

  /**
   On a variant-B request the answer passes exactly when the last timeline frame with the referenced id
   still maps to the product by one candidate: the gate keys frames by id alone, the store by epoch and
   id.
   */
  lemma StubPassesWithFrames(ctx: SessionContext, b: Buffer, observations: seq<Frame>, settings: Settings,
                             modelId: string, request: Request, diagnosis: string -> bool, o: Output)
    requires Dispatches(ctx, b, observations, settings, modelId, request)
    requires request.source.None? && request.evidence.variant == B
    requires Recommend(request) == Some(o) && !diagnosis(CombinedText(o))
    ensures |o.evidence| == 1 && |o.evidence[0].refs| == 1
    ensures Admits(request, diagnosis, o) <==> Resolves(request, o.productId, o.evidence[0].refs[0].refId)
  {
    hide Dispatches, RecommendFromSignals, LegacyRequest, Admits, CombinedText, EligibleProducts, GazeSignals, LastFrame,
      OneCandidate, LastWindow;
    var fs, ids := DispatchedLegacy(ctx, b, observations, settings, modelId, request);
    AnswerRef(request, o);
    SignalsExist(request);
    SignalsMeanGaze(request, fs, ids);
    RequestTags(request, fs, ids);
    LegacyAnswer(request, diagnosis, o);
  }

  // ----- Source path -----

  lemma RankedFirst(request: Request, e: VisualEvidence)
    requires RankedOf(request.MatchingProducts(), e) != []
    ensures var ranked := Sort(RankedLess, RankedOf(request.MatchingProducts(), e));
      && ranked != [] && ranked[0].product in request.MatchingProducts()
      && ranked[0].score == SumWorth(AllClaims(ranked[0].product.profile, e))
      && ranked[0].values == MatchedValues(AllClaims(ranked[0].product.profile, e))
  {
    hide RankedLess, SumWorth, MatchedValues, AllClaims;
    var all := RankedOf(request.MatchingProducts(), e);
    SortElements(RankedLess, all);
    SortMembers(RankedLess, all);
    var r := Sort(RankedLess, all)[0];
    assert r in Sort(RankedLess, all);
    var k :| 0 <= k < |all| && all[k] == r;
  }

  lemma {:induction false} ListedIds(ss: seq<SourceSummary>)
    ensures forall id :: id in FrameIdList(ss) <==> exists s :: s in ss && id in s.frameIds
  {
    if ss != [] {
      ListedIds(ss[..|ss| - 1]);
      assert ss == ss[..|ss| - 1] + [ss[|ss| - 1]];
    }
  }

  lemma GroundedFirst(e: VisualEvidence)
    requires SortedGroundedIds(e) != []
    ensures SortedGroundedIds(e)[0] in e.GroundedFrameIds()
  {
    ListedIds(e.sources);
    SortedSetMembers(FrameIdList(e.sources));
    assert SortedGroundedIds(e)[0] in SortedGroundedIds(e);
  }

  lemma SourceClaimsPositive(ctx: SessionContext, b: Buffer, observations: seq<Frame>, settings: Settings,
                             modelId: string, request: Request, profile: Features)
    requires Dispatches(ctx, b, observations, settings, modelId, request) && request.source.Some?
    ensures SumWorth(AllClaims(profile, request.source.value)) > 0 <==>
      MatchedValues(AllClaims(profile, request.source.value)) != {}
  {
    hide Summarized, Prepare, HitsKnown, BufferInv, Ordered, Frame.Valid, Admissible, Ready, MatchedValues, SumWorth,
      EvidenceFrom, SummariesFor, HitIds, AmbiguousCount, Enumerates, Aoi.WellFormed, AoiNamesCatalog, MatchingIds,
      ProductIds, Features.Valid, VisualEvidence.FitsLimits, UniqueMatching, Positive, AllClaims;
    DispatchParts(ctx, b, observations, settings, modelId, request);
    DispatchVisual(ctx, b, observations, settings, modelId, request);
    EvidenceScoresPositive(b.sourceHits, Ordered(observations), ctx.source.value.sources, profile);
    PositiveScore(AllClaims(profile, request.source.value));
  }

  lemma EvidenceScoresPositive(cache: map<Key, seq<Hit>>, fs: seq<Frame>, sources: seq<Definition>, profile: Features)
    requires HitsKnown(cache, sources) && forall d :: d in sources ==> d.features.Valid()
    ensures Positive(AllClaims(profile, EvidenceFrom(SummariesFor(cache, fs, sources, HitIds(cache, fs, sources)),
                                                     AmbiguousCount(cache, fs, |fs|))))
  {
    hide HitsKnown, SummariesFor, HitIds, AmbiguousCount, Features.Valid, FeatureScores, Weights, SumHits, Distinct;
    var ss := SummariesFor(cache, fs, sources, HitIds(cache, fs, sources));
    DistinctFeatures(sources);
    FeaturePositive(cache, fs, sources, ColorPrimary);
    FeaturePositive(cache, fs, sources, ColorFamily);
    FeaturePositive(cache, fs, sources, Silhouette);
    FeaturePositive(cache, fs, sources, CategoryType);
    FeaturePositive(cache, fs, sources, Patterns);
    FeaturePositive(cache, fs, sources, Accessories);
    ClaimsPositive(profile, EvidenceFrom(ss, AmbiguousCount(cache, fs, |fs|)));
  }

  ghost predicate AllPositive(scores: seq<FeatureScore>) {
    forall s :: s in scores ==> s.score >= 1
  }

  lemma ClaimsPositive(profile: Features, e: VisualEvidence)
    requires AllPositive(e.colorPrimary) && AllPositive(e.colorFamily) && AllPositive(e.silhouette)
    requires AllPositive(e.categoryType) && AllPositive(e.patterns) && AllPositive(e.accessories)
    ensures Positive(AllClaims(profile, e))
  {
  }

  lemma FeaturePositive(cache: map<Key, seq<Hit>>, fs: seq<Frame>, sources: seq<Definition>,
                        select: Features -> seq<string>)
    requires HitsKnown(cache, sources) && forall d :: d in sources ==> Distinct(select(d.features))
    ensures AllPositive(FeatureScores(Weights(SummariesFor(cache, fs, sources, HitIds(cache, fs, sources)), select)))
  {
    hide HitsKnown, SummariesFor, HitIds, FeatureScores, Weights;
    var scores := FeatureScores(Weights(SummariesFor(cache, fs, sources, HitIds(cache, fs, sources)), select));
    forall s | s in scores ensures s.score >= 1 {
      FeatureFacts.ScoreCountsFrames(cache, fs, sources, select, s);
    }
  }

  lemma MatchingFound(products: seq<MatchingProduct>, m: MatchingProduct)
    requires UniqueMatching(products) && m in products
    ensures MatchingOf(products, m.productId) == Some(m)
  {
    var found := MatchingOf(products, m.productId);
    var j :| 0 <= j < |products| && products[j] == m;
    var k :| 0 <= k < |products| && products[k] == found.value;
  }

  lemma TagsForAllowed(profile: Product, r: Ranked)
    requires profile.Valid()
    ensures Distinct(TagsFor(profile, r)) && forall t :: t in TagsFor(profile, r) ==> t in profile.controlledTags
  {
    var shared := Keep(profile.controlledTags, set t | t in r.product.controlledTags);
    assert shared != [] ==> shared[0] in shared;
  }

  lemma SourceAnswerParts(request: Request, e: VisualEvidence, o: Output)
    requires RecommendFromSource(request, e) == Some(o)
    requires forall p :: p in request.products ==> p.Valid()
    ensures exists m :: m in request.MatchingProducts() && m.productId == o.productId
                        && SumWorth(AllClaims(m.profile, e)) > 0
    ensures ProfileOf(request.products, o.productId).Some? && TagsControlled(o, request.products)
    ensures Distinct(o.style.matchedTags) && (forall t :: t in o.style.matchedTags ==> t in CONTROLLED_TAGS)
    ensures (forall m :: m in request.MatchingProducts() ==> m.profile.Valid()) ==> |o.style.matchedTags| <= 5
    ensures exists id :: id in e.GroundedFrameIds() && o.evidence == SourceItems(o.productId, id)
    ensures o.reasonCodes == [ObservedAttentionLead, CatalogTagAlignment]
    ensures o.reason == STUB_TEXT && o.style.summary == STUB_TEXT && o.style.matchedTags != []
  {
    hide SumWorth, MatchedValues, AllClaims, TagsFor, VisualEvidence.GroundedFrameIds, SortedGroundedIds, RankedLess,
      ProfileOf;
    RankedFirst(request, e);
    var ranked := Sort(RankedLess, RankedOf(request.MatchingProducts(), e));
    var profile := ProfileOf(request.products, ranked[0].product.productId);
    TagsForAllowed(profile.value, ranked[0]);
    if forall m :: m in request.MatchingProducts() ==> m.profile.Valid() {
      FewTags(profile.value, ranked[0], e);
    }
    GroundedFirst(e);
  }

  // Which words are both a tag and a word of a closed feature vocabulary.

  lemma FamilyTags()
    ensures COLOR_FAMILIES !! CONTROLLED_TAGS
  {
  }

  lemma CategoryTags()
    ensures CATEGORY_TYPES * CONTROLLED_TAGS == {"backpack"}
  {
  }

  lemma PatternTags()
    ensures PATTERNS * CONTROLLED_TAGS == {"monogram"}
  {
  }

  lemma AccessoryTags()
    ensures BAG_ACCESSORIES * CONTROLLED_TAGS == {"top_handle"}
  {
  }

  /** A profile matches at most five tags: a colour, a silhouette, and one word of each other vocabulary. */
  lemma FewTags(profile: Product, r: Ranked, e: VisualEvidence)
    requires profile.Valid() && r.product.profile.Valid() && r.values == MatchedValues(AllClaims(r.product.profile, e))
    ensures |TagsFor(profile, r)| <= 5
  {
    hide MatchedValues, AllClaims, COLOR_FAMILIES, CATEGORY_TYPES, PATTERNS, BAG_ACCESSORIES, CONTROLLED_TAGS, SILHOUETTES;
    var f := r.product.profile;
    var few := {f.colorPrimary, f.silhouette, "backpack", "monogram", "top_handle"};
    var matched := Keep(profile.controlledTags, r.values);
    forall t | t in matched ensures t in few {
      MatchedIsObserved(f, e, t);
      MatchedTag(f, t);
    }
    DistinctCount(matched);
    SmallSubset(ValueSet(matched), few);
    FiveAtMost(f.colorPrimary, f.silhouette);
  }

  lemma FiveAtMost(a: string, b: string)
    ensures |{a, b, "backpack", "monogram", "top_handle"}| <= 5
  {
    var three := {"backpack", "monogram", "top_handle"};
    assert |three| <= 3;
    assert {a, b, "backpack", "monogram", "top_handle"} == {a, b} + three;
    assert |{a, b}| <= 2;
  }

  lemma MatchedTag(f: Features, t: string)
    requires f.Valid() && t in CONTROLLED_TAGS
    requires t in {f.colorPrimary, f.colorFamily, f.silhouette, f.categoryType} || t in f.patterns || t in f.accessories
    ensures t in {f.colorPrimary, f.silhouette, "backpack", "monogram", "top_handle"}
  {
    hide COLOR_FAMILIES, CATEGORY_TYPES, PATTERNS, BAG_ACCESSORIES, CONTROLLED_TAGS, SILHOUETTES;
    FamilyTags();
    CategoryTags();
    PatternTags();
    AccessoryTags();
    assert t in CATEGORY_TYPES ==> t in CATEGORY_TYPES * CONTROLLED_TAGS;
    assert t in PATTERNS ==> t in PATTERNS * CONTROLLED_TAGS;
    assert t in BAG_ACCESSORIES ==> t in BAG_ACCESSORIES * CONTROLLED_TAGS;
  }

  lemma SourceItemsAdmitted(request: Request, o: Output, id: string)
    requires request.source.Some? && id in request.source.value.GroundedFrameIds()
    requires o.evidence == SourceItems(o.productId, id)
    ensures forall item :: item in o.evidence ==> item.Valid() && item.productId == o.productId
    ensures forall item :: item in o.evidence ==> ItemAdmitted(request, o.productId, item)
    ensures o.Says(ObservedAttention) && o.Says(ProductTagMatch) && |o.evidence| == 2
  {
    hide VisualEvidence.GroundedFrameIds;
    assert o.evidence[0] in o.evidence && o.evidence[1] in o.evidence;
  }

  lemma SourceOutputValid(o: Output)
    requires o.reason == STUB_TEXT && o.style.summary == STUB_TEXT && o.style.matchedTags != []
    requires o.reasonCodes == [ObservedAttentionLead, CatalogTagAlignment] && Distinct(o.style.matchedTags)
    requires |o.evidence| == 2 && forall item :: item in o.evidence ==> item.Valid()
    requires |o.style.matchedTags| <= 5 && forall t :: t in o.style.matchedTags ==> t in CONTROLLED_TAGS
    ensures o.Valid()
    ensures ObservedAttentionLead in o.reasonCodes && CatalogTagAlignment in o.reasonCodes
  {
    hide Item.Valid, CONTROLLED_TAGS;
  }

  /** The catalog facts that a source-path request carries. */
  ghost predicate SourceRequest(request: Request) {
    && request.source.Some?
    && (forall p :: p in request.products ==> p.Valid())
    && MatchingIds(request.MatchingProducts()) == ProductIds(request.products)
    && UniqueMatching(request.MatchingProducts())
    && (forall m :: m in request.MatchingProducts() ==> m.profile.Valid())
  }

  lemma DispatchedSource(ctx: SessionContext, b: Buffer, observations: seq<Frame>, settings: Settings, modelId: string,
                         request: Request)
    requires Dispatches(ctx, b, observations, settings, modelId, request) && request.source.Some?
    ensures SourceRequest(request)
  {
    hide Dispatches, Summarized, Frame.Valid, Admissible, Ready, ProductIds, MatchingIds, Aoi.WellFormed, AoiNamesCatalog,
      SourceBound, UniqueMatching, Distinct;
    DispatchParts(ctx, b, observations, settings, modelId, request);
    DispatchContext(ctx, b, observations, settings, modelId, request);
  }

  lemma MatchedOverlaps(request: Request, e: VisualEvidence, m: MatchingProduct)
    requires UniqueMatching(request.MatchingProducts()) && m in request.MatchingProducts()
    requires SumWorth(AllClaims(m.profile, e)) > 0 && MatchedValues(AllClaims(m.profile, e)) != {}
    ensures MatchingOf(request.MatchingProducts(), m.productId).Some?
    ensures Overlaps(e, MatchingOf(request.MatchingProducts(), m.productId).value)
  {
    hide SumWorth, MatchedValues, AllClaims, UniqueMatching;
    MatchingFound(request.MatchingProducts(), m);
  }

  /**
   On the source path every answer of the client passes the gate. It never exceeds the eight tags of the
   output's data model: the closed vocabularies let it match five at most.
   */
  lemma StubPassesOnSourcePath(ctx: SessionContext, b: Buffer, observations: seq<Frame>, settings: Settings,
                               modelId: string, request: Request, diagnosis: string -> bool, o: Output)
    requires Dispatches(ctx, b, observations, settings, modelId, request) && request.source.Some?
    requires Recommend(request) == Some(o) && !diagnosis(CombinedText(o))
    ensures Admits(request, diagnosis, o) && |o.style.matchedTags| <= 5
  {
    hide Dispatches, RecommendFromSource, CombinedText, VisualEvidence.GroundedFrameIds, ProductIds, MatchingIds, Overlaps,
      ItemAdmitted, TagsControlled, SumWorth, MatchedValues, AllClaims, UniqueMatching, Output.Valid, Distinct, Item.Valid,
      Output.Says;
    DispatchedSource(ctx, b, observations, settings, modelId, request);
    var e := request.source.value;
    SourceAnswerParts(request, e, o);
    var m :| m in request.MatchingProducts() && m.productId == o.productId && SumWorth(AllClaims(m.profile, e)) > 0;
    SourceClaimsPositive(ctx, b, observations, settings, modelId, request, m.profile);
    MatchedOverlaps(request, e, m);
    KnownProduct(request.products, o.productId);
    var id :| id in e.GroundedFrameIds() && o.evidence == SourceItems(o.productId, id);
    SourceItemsAdmitted(request, o, id);
    SourceOutputValid(o);
  }
}
