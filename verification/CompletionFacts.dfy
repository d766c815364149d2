/**
 What `begin_completion` can end in: exactly when the data model refuses the evidence, that everything
 else is well-formed, and what the gate can still admit.
 */
module CompletionFacts {
  import opened Common
  import opened Observations
  import opened Sorting
  import opened RunDecomposition
  import opened SourceAoi
  import opened Ingestion
  import opened Evidence
  import opened EvidenceSummary
  import opened EvidenceFacts
  import opened SourceEvidence
  import opened Matching
  import opened FeatureFacts
  import opened Snapshots
  import opened Gate
  import opened Completion
  import opened Grounding
  import Aoi = AoiMetadata

  // ----- When the data model refuses the evidence -----

  function ValueSet(values: seq<string>): set<string> {
    set v | v in values
  }

  lemma {:induction false} DistinctCount(s: seq<string>)
    requires Distinct(s)
    ensures |ValueSet(s)| == |s|
  {
    if s != [] {
      var init, last := s[..|s| - 1], s[|s| - 1];
      DistinctCount(init);
      assert s == init + [last];
      assert ValueSet(s) == ValueSet(init) + {last};
    }
  }

  /** A feature has as many scores as distinct observed values. */
  lemma ScoreListLength(ps: seq<Weighted>)
    ensures |FeatureScores(ps)| == |ValueSet(Values(ps))|
  {
    hide ScoresFor;
    SortElements(ScoreLess, ScoresFor(ps, Dedup(Values(ps))));
    DistinctCount(Dedup(Values(ps)));
    assert ValueSet(Dedup(Values(ps))) == ValueSet(Values(ps));
  }

  lemma {:induction false} WeightValues(ss: seq<SourceSummary>, select: Features -> seq<string>)
    ensures forall v :: v in ValueSet(Values(Weights(ss, select))) <==> exists s :: s in ss && v in select(s.features)
  {
    if ss != [] {
      var init, s := ss[..|ss| - 1], ss[|ss| - 1];
      WeightValues(init, select);
      assert ss == init + [s];
      PairValues(Weights(init, select), select(s.features), s);
    }
  }

  lemma PairValues(ps: seq<Weighted>, values: seq<string>, s: SourceSummary)
    ensures ValueSet(Values(ps + Pairs(values, s))) == ValueSet(Values(ps)) + ValueSet(values)
  {
    var all := Values(ps + Pairs(values, s));
    assert all == Values(ps) + values;
  }

  /** The values of a feature among the sources hit alone. */
  function HitValues(cache: map<Key, seq<Hit>>, fs: seq<Frame>, sources: seq<Definition>, select: Features -> seq<string>)
    : set<string>
    requires HitsKnown(cache, sources)
  {
    set id, v | id in HitIds(cache, fs, sources) && v in select(DefinitionOf(sources, id).features) :: v
  }

  lemma ScoredValues(cache: map<Key, seq<Hit>>, fs: seq<Frame>, sources: seq<Definition>, select: Features -> seq<string>)
    requires HitsKnown(cache, sources)
    ensures |FeatureScores(Weights(SummariesFor(cache, fs, sources, HitIds(cache, fs, sources)), select))| ==
      |HitValues(cache, fs, sources, select)|
  {
    hide FeatureScores, Weights, HitsKnown, HitIds, FrameIdsOf, DwellUpTo, ReturnCount, SourceEvidence.TrackOf;
    var ids := HitIds(cache, fs, sources);
    var ss := SummariesFor(cache, fs, sources, ids);
    ScoreListLength(Weights(ss, select));
    WeightValues(ss, select);
    var values := ValueSet(Values(Weights(ss, select)));
    forall v ensures v in values <==> v in HitValues(cache, fs, sources, select) {
      SummaryValues(cache, fs, sources, ids, select, v);
    }
    assert values == HitValues(cache, fs, sources, select);
  }

  lemma SummaryValues(cache: map<Key, seq<Hit>>, fs: seq<Frame>, sources: seq<Definition>, ids: seq<string>,
                      select: Features -> seq<string>, v: string)
    requires Known(sources, ids)
    ensures var ss := SummariesFor(cache, fs, sources, ids);
      (exists s :: s in ss && v in select(s.features)) <==>
      exists id :: id in ids && v in select(DefinitionOf(sources, id).features)
  {
    hide FrameIdsOf, DwellUpTo, ReturnCount, SourceEvidence.TrackOf, Has;
    var ss := SummariesFor(cache, fs, sources, ids);
    if s :| s in ss && v in select(s.features) {
      var k :| 0 <= k < |ss| && ss[k] == s;
      assert ids[k] in ids;
    }
    if id :| id in ids && v in select(DefinitionOf(sources, id).features) {
      var k :| 0 <= k < |ids| && ids[k] == id;
      assert ss[k] in ss;
    }
  }

  lemma SmallSubset(s: set<string>, all: set<string>)
    requires s <= all
    ensures |s| <= |all|
  {
    if s != all {
      var rest := all - s;
      assert all == s + rest;
    }
  }

  lemma VocabularySizes()
    ensures |COLOR_FAMILIES| <= 16 && |SILHOUETTES| <= 16 && |CATEGORY_TYPES| <= 16
    ensures |PATTERNS| <= 32 && |BAG_ACCESSORIES| <= 32
  {
  }

  /** A feature with a closed vocabulary never has more scores than the vocabulary has words. */
  lemma ClosedFeature(cache: map<Key, seq<Hit>>, fs: seq<Frame>, sources: seq<Definition>,
                      select: Features -> seq<string>, vocabulary: set<string>)
    requires HitsKnown(cache, sources)
    requires forall d, v :: d in sources && v in select(d.features) ==> v in vocabulary
    ensures |FeatureScores(Weights(SummariesFor(cache, fs, sources, HitIds(cache, fs, sources)), select))| <= |vocabulary|
  {
    hide FeatureScores, Weights, HitsKnown, HitIds, SummariesFor;
    ScoredValues(cache, fs, sources, select);
    SmallSubset(HitValues(cache, fs, sources, select), vocabulary);
  }

  lemma VocabulariesHold(sources: seq<Definition>)
    requires forall d :: d in sources ==> d.features.Valid()
    ensures forall d, v :: d in sources && v in ColorFamily(d.features) ==> v in COLOR_FAMILIES
    ensures forall d, v :: d in sources && v in Silhouette(d.features) ==> v in SILHOUETTES
    ensures forall d, v :: d in sources && v in CategoryType(d.features) ==> v in CATEGORY_TYPES
    ensures forall d, v :: d in sources && v in Patterns(d.features) ==> v in PATTERNS
    ensures forall d, v :: d in sources && v in Accessories(d.features) ==> v in BAG_ACCESSORIES
  {
  }

  /** Source evidence is refused exactly when more than 32 primary colours were hit. */
  lemma SourceEvidenceRefused(observations: seq<Frame>, cache: map<Key, seq<Hit>>, sources: seq<Definition>)
    requires HitsKnown(cache, sources) && forall d :: d in sources ==> d.features.Valid()
    ensures Built(observations, cache, sources).Err? <==>
      |HitValues(cache, Ordered(observations), sources, ColorPrimary)| > 32
  {
    hide FeatureScores, Weights, HitsKnown, HitIds, SummariesFor, Features.Valid, AmbiguousCount, Ordered, HitValues, SumHits;
    var fs := Ordered(observations);
    VocabularySizes();
    VocabulariesHold(sources);
    ScoredValues(cache, fs, sources, ColorPrimary);
    ClosedFeature(cache, fs, sources, ColorFamily, COLOR_FAMILIES);
    ClosedFeature(cache, fs, sources, Silhouette, SILHOUETTES);
    ClosedFeature(cache, fs, sources, CategoryType, CATEGORY_TYPES);
    ClosedFeature(cache, fs, sources, Patterns, PATTERNS);
    ClosedFeature(cache, fs, sources, Accessories, BAG_ACCESSORIES);
    NoHitsNoValues(cache, fs, sources);
    hide COLOR_FAMILIES, SILHOUETTES, CATEGORY_TYPES, PATTERNS, BAG_ACCESSORIES;
  }

  lemma NoHitsNoValues(cache: map<Key, seq<Hit>>, fs: seq<Frame>, sources: seq<Definition>)
    requires HitsKnown(cache, sources)
    ensures HitIds(cache, fs, sources) == [] ==> |HitValues(cache, fs, sources, ColorPrimary)| == 0
  {
    hide HitIds, HitsKnown;
    if HitIds(cache, fs, sources) == [] {
      assert HitValues(cache, fs, sources, ColorPrimary) == {};
    }
  }

  lemma {:induction false} DedupShorter(ids: seq<string>)
    ensures |Dedup(ids)| <= |ids|
  {
    if ids != [] {
      DedupShorter(ids[..|ids| - 1]);
    }
  }

  lemma CatalogFits(ctx: SessionContext, fs: seq<Frame>)
    requires ContextValid(ctx)
    ensures var ids := CatalogIds(CatalogOrder(ctx.products), fs);
      && ids != [] && |ids| <= MAX_CATALOG
      && (forall id :: id in ids <==> id in ProductIds(ctx.products))
  {
    hide Aoi.WellFormed, AoiNamesCatalog, SourceBound, MatchingIds;
    var order := CatalogOrder(ctx.products);
    DedupShorter(order);
    SortedSetMembers(order);
    SortElements(StringLess, Dedup(order));
    CatalogMembers(ctx.products);
    hide Dedup;
  }

  lemma CatalogMembers(products: seq<Product>)
    ensures forall id :: id in CatalogOrder(products) <==> id in ProductIds(products)
  {
    var order := CatalogOrder(products);
    forall p | p in products ensures p.productId in order {
      var i :| 0 <= i < |products| && products[i] == p;
      assert order[i] == p.productId;
    }
  }

  /** The frames of a snapshot, in analysis order and enriched. */
  function FramesOfSnapshot(ctx: SessionContext, observations: seq<Frame>): (fs: seq<Frame>)
    requires forall o :: o in observations ==> o.Valid()
    ensures |fs| == |observations|
  {
    OrderedMembers(observations);
    Enriched(Ordered(observations), MappingMetadata(ctx))
  }

  /** How many windows the snapshot has: one per product run. */
  function WindowTotal(ctx: SessionContext, observations: seq<Frame>): nat
    requires forall o :: o in observations ==> o.Valid()
  {
    var fs := FramesOfSnapshot(ctx, observations);
    |RunsOf(Evidence.TrackOf(fs), |fs|)|
  }

  lemma SnapshotFacts(ctx: SessionContext, b: Buffer, observations: seq<Frame>)
    requires Snapshotted(ctx, b, observations)
    ensures var fs := FramesOfSnapshot(ctx, observations);
      && |fs| <= MAX_TIMELINE && OffsetsAscend(fs) && (forall w :: w in WindowsOf(fs) ==> w.Valid())
  {
    hide Frame.Valid, Admissible, HitsKnown, ContextValid, Ordered, Enriched, WindowsOf, OffsetsAscend, Window.Valid,
      DistinctSequences, BufferInv, Enumerates;
    OrderedFacts(ctx, b, observations);
    OrderedMembers(observations);
    EnrichedFacts(Ordered(observations), MappingMetadata(ctx));
    WindowsForward(FramesOfSnapshot(ctx, observations));
  }

  /** Some catalog product's expression summary does not fit its data model. */
  predicate SomeExpressionRefused(ctx: SessionContext, observations: seq<Frame>)
    requires forall o :: o in observations ==> o.Valid()
  {
    exists p :: p in ProductIds(ctx.products) && ExpressionRefused(FramesOfSnapshot(ctx, observations), p)
  }

  /** Why aggregation fails: too many windows for a variant that carries them, or an expression summary. */
  predicate AggregationRefused(ctx: SessionContext, observations: seq<Frame>, input: Variant)
    requires forall o :: o in observations ==> o.Valid()
  {
    SomeExpressionRefused(ctx, observations) || (input != B && WindowTotal(ctx, observations) > MAX_WINDOWS)
  }

  /** Why source evidence fails: more than 32 primary colours. */
  predicate ColoursRefused(ctx: SessionContext, b: Buffer, observations: seq<Frame>)
    requires ctx.source.Some? ==> HitsKnown(b.sourceHits, ctx.source.value.sources)
  {
    ctx.source.Some?
    && |HitValues(b.sourceHits, Ordered(observations), ctx.source.value.sources, ColorPrimary)| > 32
  }

  /** On what the store accepted, aggregation fails in these two cases only. */
  lemma SummarizedTotal(ctx: SessionContext, b: Buffer, observations: seq<Frame>, input: Variant)
    requires Snapshotted(ctx, b, observations) && observations != []
    ensures Summarized(observations, MappingMetadata(ctx), CatalogOrder(ctx.products), input).Err? <==>
      AggregationRefused(ctx, observations, input)
  {
    hide Frame.Valid, Admissible, HitsKnown, Ordered, Enriched, WindowsOf, OffsetsAscend, Window.Valid, BufferInv,
      Enumerates, CatalogIds, Quality, Summaries, EligibleIds, ContextValid, ExpressionRefused, ProductSummary.Valid;
    SnapshotFacts(ctx, b, observations);
    OrderedMembers(observations);
    var fs := FramesOfSnapshot(ctx, observations);
    CatalogFits(ctx, fs);
    SummariesFit(fs, CatalogIds(CatalogOrder(ctx.products), fs));
  }

  /**
   `begin_completion` fails after the session was marked pending in exactly four cases: a variant that
   carries windows would carry more than 128 of them; some product's frames name a changing expression
   signal but no rate of change, or more than 64 sustained signals between them; or source AOIs of more
   than 32 primary colours were hit. In every other case aggregation is total.
   */
  lemma AggregationTotal(ctx: SessionContext, b: Buffer, observations: seq<Frame>, settings: Settings, modelId: string,
                         accepted: Acceptance)
    requires Snapshotted(ctx, b, observations) && observations != []
    ensures Prepare(ctx, observations, b.sourceHits, settings, modelId, accepted).Refused? <==>
      AggregationRefused(ctx, observations, settings.inputVariant) || ColoursRefused(ctx, b, observations)
  {
    hide Frame.Valid, Admissible, HitsKnown, Ordered, Enriched, WindowsOf, BufferInv, Enumerates, Summarized, Built,
      HitValues, Features.Valid, AggregationRefused, Aoi.WellFormed, AoiNamesCatalog, ProductIds, MatchingIds;
    SummarizedTotal(ctx, b, observations, settings.inputVariant);
    if ctx.source.Some? {
      SourceEvidenceRefused(observations, b.sourceHits, ctx.source.value.sources);
    }
  }

  /** On the source path nothing maps to a product, so only the colours can be refused. */
  lemma SourcePathAggregates(ctx: SessionContext, b: Buffer, observations: seq<Frame>, input: Variant)
    requires Snapshotted(ctx, b, observations) && ctx.source.Some?
    ensures !AggregationRefused(ctx, observations, input)
  {
    hide Frame.Valid, Admissible, HitsKnown, Ordered, Enriched, BufferInv, Enumerates, ContextValid, RunsOf, SignalsOf,
      Aoi.MappedProduct;
    SnapshotFacts(ctx, b, observations);
    OrderedMembers(observations);
    var fs := FramesOfSnapshot(ctx, observations);
    NoMetadataNoWindows(Ordered(observations));
    forall p ensures FramesOf(fs, |fs|, p) == [] {
      NothingMapped(fs, |fs|, p);
    }
  }

  lemma {:induction false} NothingMapped(fs: seq<Frame>, n: nat, p: string)
    requires n <= |fs| && forall f :: f in fs ==> Aoi.MappedProduct(f).None?
    ensures FramesOf(fs, n, p) == []
  {
    hide Aoi.MappedProduct;
    if n > 0 {
      NothingMapped(fs, n - 1, p);
      assert fs[n - 1] in fs;
    }
  }

  // ----- Everything that is not refused is well-formed -----

  lemma SummarizedValid(observations: seq<Frame>, aoi: Option<Aoi.Metadata>, productIds: seq<string>, input: Variant)
    requires forall f :: f in observations ==> f.Valid()
    requires Summarized(observations, aoi, productIds, input).Ok?
    ensures var e := Summarized(observations, aoi, productIds, input).value.evidence; e.Valid() && e.quality.Valid()
  {
    hide Enriched, CatalogIds, WindowsOf, Summaries, EligibleIds, Quality, Frame.Valid, Ordered, Window.Valid,
      DataQuality.Valid;
    OrderedMembers(observations);
    QualityValid(Ordered(observations), Enriched(Ordered(observations), aoi), aoi);
  }

  lemma CappedRatio(n: nat, d: nat)
    requires d > 0
    ensures 0.0 <= RealMin(1.0, Ratio(n, d)) <= 1.0
  {
  }

  lemma SourceQualityValid(q: DataQuality, visual: Option<VisualEvidence>)
    requires q.Valid()
    ensures SourceQuality(q, visual).Valid()
  {
    hide Ratio, RealMin;
    var expected := if q.expected == 0 then 1 else q.expected;
    CappedRatio(if visual.Some? then visual.value.totalHits else 0, expected);
    CappedRatio(if visual.Some? then visual.value.ambiguous else 0, expected);
  }

  lemma {:induction false} FirstProductIn(products: seq<Product>, id: string, default: Product)
    ensures FirstProduct(products, id, default) in products || FirstProduct(products, id, default) == default
  {
    if products != [] {
      FirstProductIn(products[1..], id, default);
    }
  }

  lemma DemoValid(p: Product, ref: Ref, e: EvidenceV2, accepted: Acceptance)
    requires p.Valid()
    requires ref.kind == if e.variant == B then FrameRef else WindowRef
    ensures DemoFor(p, ref, e, accepted).Valid()
  {
  }

  lemma FinishValid(ctx: SessionContext, settings: Settings, modelId: string, accepted: Acceptance, summarized: Snapshot,
                    visual: Option<VisualEvidence>)
    requires ContextValid(ctx) && summarized.evidence.Valid() && summarized.evidence.quality.Valid()
    requires visual.Some? ==> ctx.source.Some?
    ensures var p := Finish(ctx, settings, modelId, accepted, summarized, visual);
      && !p.Refused?
      && (p.Immediate? ==> p.decision.Valid() && p.decision.quality.Valid())
      && (p.Dispatch? ==> p.request.Valid() && p.request.evidence.quality.Valid())
  {
    hide Aoi.WellFormed, AoiNamesCatalog, SourceBound, MatchingIds, ProductIds, DemoFor, Ready, DataQuality.Valid,
      SourceQuality, FirstProduct;
    SourceQualityValid(summarized.evidence.quality, visual);
    var first := ctx.products[0];
    assert first in ctx.products;
    forall id ensures FirstProduct(ctx.products, id, first) in ctx.products {
      FirstProductIn(ctx.products, id, first);
    }
    forall p: Product, ref: Ref, e: EvidenceV2 | p in ctx.products && ref.kind == (if e.variant == B then FrameRef else WindowRef)
      ensures DemoFor(p, ref, e, accepted).Valid() && DemoFor(p, ref, e, accepted).quality == e.quality
    {
      DemoValid(p, ref, e, accepted);
      DemoQuality(p, ref, e, accepted);
    }
  }

  lemma DemoQuality(p: Product, ref: Ref, e: EvidenceV2, accepted: Acceptance)
    ensures DemoFor(p, ref, e, accepted).quality == e.quality
  {
  }

  /** Immediate decisions and requests always satisfy their data models, ratios included. */
  lemma PreparedValid(ctx: SessionContext, b: Buffer, observations: seq<Frame>, settings: Settings, modelId: string,
                      accepted: Acceptance)
    requires Snapshotted(ctx, b, observations)
    ensures var p := Prepare(ctx, observations, b.sourceHits, settings, modelId, accepted);
      && (p.Immediate? ==> p.decision.Valid() && p.decision.quality.Valid())
      && (p.Dispatch? ==> p.request.Valid() && p.request.evidence.quality.Valid())
  {
    hide Frame.Valid, Admissible, HitsKnown, BufferInv, Enumerates, Summarized, Built, Finish, ContextValid,
      EvidenceV2.Valid, DataQuality.Valid, Decision.Valid, Request.Valid;
    EmptyQualityValid(accepted, settings);
    if observations != [] {
      var summarized := Summarized(observations, MappingMetadata(ctx), CatalogOrder(ctx.products), settings.inputVariant);
      var visual := VisualOf(ctx, observations, b.sourceHits);
      if summarized.Ok? && visual.Ok? {
        SummarizedValid(observations, MappingMetadata(ctx), CatalogOrder(ctx.products), settings.inputVariant);
        FinishValid(ctx, settings, modelId, accepted, summarized.value, visual.value);
      }
    }
  }

  lemma EmptyQualityValid(accepted: Acceptance, settings: Settings)
    ensures var d := EmptyDecision(accepted, InsufficientData, InsufficientValidSignal, NoQuality, settings.inputVariant);
      d.Valid() && d.quality.Valid()
  {
  }

  // ----- Which products the gate can admit -----

  lemma {:induction false} GazeCounted(fs: seq<Frame>, f: Frame)
    requires f in fs && f.gaze.value.Some?
    ensures CountGaze(fs) > 0
  {
    if fs[|fs| - 1] != f {
      assert f in fs[..|fs| - 1];
      GazeCounted(fs[..|fs| - 1], f);
    }
  }

  lemma PositiveRatio(n: nat, d: nat)
    requires n > 0 && d > 0
    ensures Ratio(n, d) > 0.0
  {
  }

  lemma EnrichedGaze(raw: Frame, aoi: Option<Aoi.Metadata>)
    requires raw.Valid() && (raw.attention.value.Some? ==> raw.attention.value.value.candidates == [])
    ensures Aoi.MappedProduct(Aoi.Enrich(raw, MappingOf(raw, aoi))).Some? ==>
      Aoi.Enrich(raw, MappingOf(raw, aoi)).gaze.value.Some? && aoi.Some?
      && exists e :: e in aoi.value.exposures && e.productId == Aoi.MappedProduct(Aoi.Enrich(raw, MappingOf(raw, aoi))).value
  {
    var f := Aoi.Enrich(raw, MappingOf(raw, aoi));
    if Aoi.MappedProduct(f).Some? && aoi.Some? {
      var p := Aoi.MappedProduct(f).value;
      Aoi.MappedProductGrounded(raw, aoi.value, p);
      assert Aoi.Hits(raw, aoi.value, p);
    }
  }

  /** Mapped frames carry gaze, and approved AOIs name catalog products only. */
  lemma MappedFramesAreEligible(ctx: SessionContext, observations: seq<Frame>, i: nat)
    requires ContextValid(ctx) && forall o :: o in observations ==> o.Valid() && Admissible(ctx, o)
    requires i < |observations|
    ensures var fs := FramesOfSnapshot(ctx, observations);
      Aoi.MappedProduct(fs[i]).Some? ==>
        fs[i].gaze.value.Some? && Aoi.MappedProduct(fs[i]).value in ProductIds(ctx.products)
  {
    hide Frame.Valid, Aoi.MapFrame, Aoi.MappedProduct, Aoi.Enrich, Ordered, Aoi.WellFormed, SourceBound, MatchingIds,
      ProductIds;
    OrderedAdmissible(ctx, observations);
    OrderedMembers(observations);
    assert Ordered(observations)[i] in Ordered(observations);
    EnrichedGaze(Ordered(observations)[i], MappingMetadata(ctx));
  }

  lemma RunLabel(t: RunDecomposition.Track, r: Run)
    requires t.Valid() && IsRun(t, |t.labels|, r)
    ensures r.start < |t.labels| && t.labels[r.start] == Some(r.name)
  {
  }

  lemma SomeLabel(fs: seq<Frame>) returns (i: nat)
    requires RunsOf(Evidence.TrackOf(fs), |fs|) != []
    ensures i < |fs| && Aoi.MappedProduct(fs[i]).Some?
  {
    hide Aoi.MappedProduct, RunsOf, Evidence.TrackOf, IsRun, InOrder;
    var t := Evidence.TrackOf(fs);
    var r := RunsOf(t, |fs|)[0];
    RunsExact(t);
    assert r in RunsOf(t, |fs|);
    RunLabel(t, r);
    i := r.start;
  }

  lemma EligibleFrom(fs: seq<Frame>, i: nat)
    requires i < |fs| && Aoi.MappedProduct(fs[i]).Some? && fs[i].gaze.value.Some?
    ensures Eligible(fs, Aoi.MappedProduct(fs[i]).value) && CountGaze(fs) > 0
  {
    hide Aoi.MappedProduct;
    var p := Aoi.MappedProduct(fs[i]).value;
    FramesOfAre(fs, |fs|, p);
    assert fs[..|fs|] == fs;
    GazeCounted(FramesOf(fs, |fs|, p), fs[i]);
    GazeCounted(fs, fs[i]);
  }

  lemma QualityGaze(ordered: seq<Frame>, fs: seq<Frame>, aoi: Option<Aoi.Metadata>)
    requires (forall f :: f in ordered ==> f.Valid()) && CountGaze(fs) > 0
    ensures Quality(ordered, fs, aoi).gazeValid > 0.0
  {
    hide Frame.Valid, Ratio, CountExpression, CountBoth, CountAmbiguous, ExpectedCount;
    var expected := Max(|fs|, ExpectedCount(fs));
    PositiveRatio(CountGaze(fs), if expected == 0 then 1 else expected);
  }

  /** A frame attributed to a product makes that product eligible and the gaze ratio positive. */
  lemma MappedMakesReady(ctx: SessionContext, observations: seq<Frame>, input: Variant, i: nat)
    requires ContextValid(ctx) && ctx.source.None?
    requires forall o :: o in observations ==> o.Valid() && Admissible(ctx, o)
    requires i < |observations| && Aoi.MappedProduct(FramesOfSnapshot(ctx, observations)[i]).Some?
    requires Summarized(observations, MappingMetadata(ctx), CatalogOrder(ctx.products), input).Ok?
    ensures var s := Summarized(observations, MappingMetadata(ctx), CatalogOrder(ctx.products), input).value;
      s.eligible != {} && s.evidence.quality.gazeValid > 0.0
  {
    hide Frame.Valid, Admissible, Summarized, ContextValid, Ordered, Enriched, Quality, WindowsOf, CatalogIds, Eligible,
      Summaries, Aoi.MappedProduct, CatalogOrder;
    var fs := FramesOfSnapshot(ctx, observations);
    SummarizedParts(observations, MappingMetadata(ctx), CatalogOrder(ctx.products), input);
    MappedFramesAreEligible(ctx, observations, i);
    EligibleFrom(fs, i);
    QualityGaze(Ordered(observations), fs, MappingMetadata(ctx));
    CatalogFits(ctx, fs);
    assert Aoi.MappedProduct(fs[i]).value in EligibleIds(fs, CatalogIds(CatalogOrder(ctx.products), fs));
  }

  /** A snapshot with windows is always ready: its request goes to the model exactly if aggregation is not refused. */
  lemma WindowsAreDispatched(ctx: SessionContext, b: Buffer, observations: seq<Frame>, settings: Settings,
                             modelId: string, accepted: Acceptance)
    requires Snapshotted(ctx, b, observations) && ctx.source.None?
    requires WindowTotal(ctx, observations) > 0
    ensures Prepare(ctx, observations, b.sourceHits, settings, modelId, accepted).Dispatch? <==>
      !AggregationRefused(ctx, observations, settings.inputVariant)
  {
    hide Frame.Valid, Admissible, HitsKnown, BufferInv, Enumerates, Summarized, ContextValid, Ordered, Enriched,
      Built, RunsOf, Aoi.MappedProduct, CatalogOrder, AggregationRefused;
    var fs := FramesOfSnapshot(ctx, observations);
    var i := SomeLabel(fs);
    SummarizedTotal(ctx, b, observations, settings.inputVariant);
    if !AggregationRefused(ctx, observations, settings.inputVariant) {
      MappedMakesReady(ctx, observations, settings.inputVariant, i);
    }
  }

  /** The products that the gate may admit on the legacy path are exactly the eligible ones. */
  lemma EligibleProductsAre(fs: seq<Frame>, ids: seq<string>, e: EvidenceV2)
    requires e.summary == Summaries(fs, ids)
    ensures EligibleProducts(e) == EligibleIds(fs, ids)
  {
    hide EvidenceSummary.SummaryOf, Eligible;
    forall p ensures p in EligibleProducts(e) <==> p in EligibleIds(fs, ids) {
      if p in EligibleIds(fs, ids) {
        var k :| 0 <= k < |ids| && ids[k] == p;
        SummaryEligible(fs, p);
        assert e.summary[k] in e.summary;
      }
      if p in EligibleProducts(e) {
        var s :| s in e.summary && s.gaze.Some? && s.gaze.value.validCount > 0 && s.productId == p;
        var k :| 0 <= k < |e.summary| && e.summary[k] == s;
        SummaryEligible(fs, ids[k]);
      }
    }
  }

  lemma SummaryEligible(fs: seq<Frame>, p: string)
    ensures var s := EvidenceSummary.SummaryOf(fs, p);
      s.productId == p && (Eligible(fs, p) <==> s.gaze.Some? && s.gaze.value.validCount > 0)
  {
    hide RunsOf, Evidence.TrackOf, Dwell, ReturnCount, Comparisons, ComponentsOf, TagsOf, FramesOf, Unambiguous, Ratio;
  }

  // ----- What a feature overlap means -----

  /** Two feature sets have a known value of the same feature in common. */
  predicate Shares(a: Features, b: Features) {
    || (a.colorPrimary == b.colorPrimary != "unknown") || (a.colorFamily == b.colorFamily != "unknown")
    || (a.silhouette == b.silhouette != "unknown") || (a.categoryType == b.categoryType != "unknown")
    || (exists v :: v in a.patterns && v in b.patterns && v != "unknown")
    || (exists v :: v in a.accessories && v in b.accessories && v != "unknown")
  }

  lemma ShownFeature(cache: map<Key, seq<Hit>>, fs: seq<Frame>, sources: seq<Definition>,
                     select: Features -> seq<string>, v: string) returns (f: Frame, d: Definition)
    requires HitsKnown(cache, sources) && forall d :: d in sources ==> Distinct(select(d.features))
    requires ScoredIn(FeatureScores(Weights(SummariesFor(cache, fs, sources, HitIds(cache, fs, sources)), select)), v)
    ensures f in fs && d in sources && SingleSource(cache, f) == Some(d.sourceId) && v in select(d.features)
  {
    hide FeatureScores, Weights, HitsKnown, HitIds, SummariesFor, FramesShowing, SingleSource;
    var s :| s in FeatureScores(Weights(SummariesFor(cache, fs, sources, HitIds(cache, fs, sources)), select)) && s.value == v;
    ScoreCountsFrames(cache, fs, sources, select, s);
    SomeFrameShows(cache, fs, |fs|, sources, select, v);
    f :| f in fs && Shows(cache, f, sources, select, v);
    d := DefinitionOf(sources, SingleSource(cache, f).value);
  }

  lemma DistinctFeatures(sources: seq<Definition>)
    requires forall d :: d in sources ==> d.features.Valid()
    ensures forall d :: d in sources ==>
      Distinct(ColorPrimary(d.features)) && Distinct(ColorFamily(d.features)) && Distinct(Silhouette(d.features))
      && Distinct(CategoryType(d.features)) && Distinct(Patterns(d.features)) && Distinct(Accessories(d.features))
  {
  }

  lemma SharedFeature(cache: map<Key, seq<Hit>>, fs: seq<Frame>, sources: seq<Definition>, e: VisualEvidence,
                      profile: Features)
    returns (f: Frame, d: Definition)
    requires HitsKnown(cache, sources) && forall d :: d in sources ==> d.features.Valid()
    requires e == EvidenceFrom(SummariesFor(cache, fs, sources, HitIds(cache, fs, sources)), AmbiguousCount(cache, fs, |fs|))
    requires MatchedValues(AllClaims(profile, e)) != {}
    ensures f in fs && d in sources && SingleSource(cache, f) == Some(d.sourceId) && Shares(profile, d.features)
  {
    hide FeatureScores, Weights, HitsKnown, HitIds, SummariesFor, MatchedValues, AllClaims, Features.Valid, SumHits,
      AmbiguousCount, SingleSource, ScoredIn, Distinct;
    DistinctFeatures(sources);
    var v :| v in MatchedValues(AllClaims(profile, e));
    MatchedIsObserved(profile, e, v);
    if v == profile.colorPrimary && ScoredIn(e.colorPrimary, v) {
      f, d := ShownFeature(cache, fs, sources, ColorPrimary, v);
    } else if v == profile.colorFamily && ScoredIn(e.colorFamily, v) {
      f, d := ShownFeature(cache, fs, sources, ColorFamily, v);
    } else if v == profile.silhouette && ScoredIn(e.silhouette, v) {
      f, d := ShownFeature(cache, fs, sources, Silhouette, v);
    } else if v == profile.categoryType && ScoredIn(e.categoryType, v) {
      f, d := ShownFeature(cache, fs, sources, CategoryType, v);
    } else if v in profile.patterns && ScoredIn(e.patterns, v) {
      f, d := ShownFeature(cache, fs, sources, Patterns, v);
    } else {
      f, d := ShownFeature(cache, fs, sources, Accessories, v);
    }
  }

  /**
   On the source path the gate admits a product only if its profile shares a known visual feature with a
   source AOI that some accepted frame hit alone.
   */
  lemma OverlapIsGrounded(ctx: SessionContext, b: Buffer, observations: seq<Frame>, settings: Settings, modelId: string,
                          request: Request, diagnosis: string -> bool, o: Output)
    returns (f: Frame, d: Definition, m: MatchingProduct)
    requires Dispatches(ctx, b, observations, settings, modelId, request)
    requires request.source.Some? && Admits(request, diagnosis, o)
    ensures f in observations && HitsOnly(f, ctx.bindings, d.sourceId)
    ensures m in request.MatchingProducts() && m.productId == o.productId && Shares(m.profile, d.features)
  {
    hide Summarized, Prepare, HitsKnown, BufferInv, HitsOnly, Ordered, Frame.Valid, Admissible, Ready, ItemAdmitted,
      TagsControlled, Output.Valid, MatchedValues, AllClaims, EvidenceFrom, SummariesFor, HitIds, SingleSource,
      AmbiguousCount, Shares, Enumerates, Aoi.WellFormed, AoiNamesCatalog, MatchingIds, ProductIds, Features.Valid,
      VisualEvidence.FitsLimits, CombinedText;
    DispatchParts(ctx, b, observations, settings, modelId, request);
    DispatchVisual(ctx, b, observations, settings, modelId, request);
    m := MatchingOf(request.MatchingProducts(), o.productId).value;
    f, d := SharedFeature(b.sourceHits, Ordered(observations), ctx.source.value.sources, request.source.value, m.profile);
    BufferFrame(ctx, b, observations, f);
    SingleSourceMeans(ctx, b, f, d.sourceId);
  }
}
