/**
 The decision that `begin_completion` prepares from a snapshot (`v2_store.py`): an immediate terminal
 decision, a job for the model, or evidence that the closed data model refuses.
 */
module Completion {
  import opened Common
  import opened Observations
  import opened Sorting
  import opened SourceAoi
  import opened Ingestion
  import opened Evidence
  import opened EvidenceSummary
  import opened SourceEvidence
  import opened Snapshots
  import opened Gate
  import Aoi = AoiMetadata

  const LUNA_MODEL_ID := "gpt-5.6-luna"
  const STUB_MODEL_ID := "deterministic-test-stub"

  /** Stands for the fixed explanatory texts of the local-demo decision. */
  const DEMO_TEXT := "local demo fallback"

  datatype Settings = Settings(inputVariant: Variant, allowDemo: bool)

  /** What the repository guarantees of every context it hands out. */
  ghost predicate ContextValid(ctx: SessionContext) {
    && |ctx.products| == MAX_CATALOG
    && (forall i, j :: 0 <= i < j < |ctx.products| ==> ctx.products[i].productId != ctx.products[j].productId)
    && (forall p :: p in ctx.products ==> p.Valid())
    && (ctx.aoi.Some? ==> Aoi.WellFormed(ctx.aoi.value) && AoiNamesCatalog(ctx.aoi.value, ctx.products))
    && (ctx.source.Some? <==> ctx.matching.Some?)
    && (ctx.source.Some? ==> SourceBound(ctx.source.value, ctx.bindings))
    && (ctx.matching.Some? ==>
      && |ctx.matching.value| == MAX_CATALOG && UniqueMatching(ctx.matching.value)
      && MatchingIds(ctx.matching.value) == ProductIds(ctx.products)
      && forall m :: m in ctx.matching.value ==> m.profile.Valid())
  }

  ghost predicate UniqueMatching(products: seq<MatchingProduct>) {
    forall i, j :: 0 <= i < j < |products| ==> products[i].productId != products[j].productId
  }

  /** `validate_aoi_metadata_for_catalog` */
  ghost predicate AoiNamesCatalog(aoi: Aoi.Metadata, products: seq<Product>) {
    forall e :: e in aoi.exposures ==> e.productId in ProductIds(products)
  }

  /** Bindings come from `bind_source_aois` on the same metadata. */
  ghost predicate SourceBound(source: SourceMetadata, bindings: seq<Bound>) {
    source.Valid() && forall b :: b in bindings ==> b.definition in source.sources
  }

  function CatalogOrder(products: seq<Product>): seq<string> {
    seq(|products|, i requires 0 <= i < |products| => products[i].productId)
  }

  datatype Prepared =
    | Immediate(decision: Decision)
    | Dispatch(request: Request)
    | Refused

  const NoQuality := DataQuality(0, 0.0, 0.0, 0.0, 0.0)

  /** `source_quality`: the two ratios are replaced by what source AOIs say. */
  function SourceQuality(q: DataQuality, visual: Option<VisualEvidence>): DataQuality {
    var expected := if q.expected == 0 then 1 else q.expected;
    var hits := if visual.Some? then visual.value.totalHits else 0;
    var ambiguous := if visual.Some? then visual.value.ambiguous else 0;
    q.(matched := RealMin(1.0, Ratio(hits, expected)), ambiguous := RealMin(1.0, Ratio(ambiguous, expected)))
  }

  /** Which AOI metadata the evidence maps against: none on the source path. */
  function MappingMetadata(ctx: SessionContext): Option<Aoi.Metadata> {
    if ctx.source.Some? then None else ctx.aoi
  }

  predicate Ready(ctx: SessionContext, snapshot: Snapshot, visual: Option<VisualEvidence>, modelId: string) {
    var e := snapshot.evidence;
    || (ctx.source.Some? && visual.Some? && e.quality.gazeValid > 0.0)
    || (ctx.source.None? && e.quality.gazeValid > 0.0 && snapshot.eligible != {})
    || (modelId == LUNA_MODEL_ID && e.variant == B && e.timeline.Some? && e.timeline.value != [])
  }

  function FirstProduct(products: seq<Product>, id: string, default: Product): Product {
    if products == [] then default
    else if products[0].productId == id then products[0]
    else FirstProduct(products[1..], id, default)
  }

  /** `_demo_fallback_decision` */
  function DemoDecision(ctx: SessionContext, settings: Settings, modelId: string, e: EvidenceV2, accepted: Acceptance)
    : Option<Decision>
  {
    if !settings.allowDemo || modelId != STUB_MODEL_ID || ctx.products == [] then None
    else if e.variant == B then
      if e.timeline.None? || e.timeline.value == [] then None
      else Some(DemoFor(ctx.products[0], Ref(FrameRef, e.timeline.value[0].frameId), e, accepted))
    else if e.windows.None? || e.windows.value == [] then None
    else
      var w := e.windows.value[0];
      Some(DemoFor(FirstProduct(ctx.products, w.productId, ctx.products[0]), Ref(WindowRef, w.windowId), e, accepted))
  }

  function DemoFor(p: Product, ref: Ref, e: EvidenceV2, accepted: Acceptance): Decision {
    var tags := if |p.controlledTags| <= 3 then p.controlledTags else p.controlledTags[..3];
    Decision(accepted, Completed, Some(p.productId), GroundedProductMatch, [CatalogTagAlignment],
             [Item(ProductTagMatch, p.productId, [ref], DEMO_TEXT)], Some(Style(tags, DEMO_TEXT)),
             Some(FocusedSingleProduct), e.quality, e.variant)
  }

  /** The visual evidence of the source path, and whether the data model accepted it. */
  function VisualOf(ctx: SessionContext, observations: seq<Frame>, hits: map<Key, seq<Hit>>)
    : Result<Option<VisualEvidence>, ()>
    requires ctx.source.Some? ==> HitsKnown(hits, ctx.source.value.sources)
  {
    if ctx.source.None? then Ok(None) else Built(observations, hits, ctx.source.value.sources)
  }

  /** `begin_completion`, from the snapshot to the prepared outcome. */
  function Prepare(ctx: SessionContext, observations: seq<Frame>, hits: map<Key, seq<Hit>>, settings: Settings,
                   modelId: string, accepted: Acceptance): Prepared
    requires forall o :: o in observations ==> o.Valid()
    requires ctx.source.Some? ==> HitsKnown(hits, ctx.source.value.sources)
  {
    if observations == [] then
      Immediate(EmptyDecision(accepted, InsufficientData, InsufficientValidSignal, NoQuality, settings.inputVariant))
    else
      var summarized := Summarized(observations, MappingMetadata(ctx), CatalogOrder(ctx.products), settings.inputVariant);
      var visual := VisualOf(ctx, observations, hits);
      if summarized.Err? || visual.Err? then Refused
      else Finish(ctx, settings, modelId, accepted, summarized.value, visual.value)
  }

  /** The part after aggregation. */
  function Finish(ctx: SessionContext, settings: Settings, modelId: string, accepted: Acceptance, summarized: Snapshot,
                  visual: Option<VisualEvidence>): Prepared
  {
    var e := if ctx.source.None? then summarized.evidence
             else summarized.evidence.(quality := SourceQuality(summarized.evidence.quality, visual));
    if !Ready(ctx, Snapshot(e, summarized.eligible), visual, modelId) then
      var demo := DemoDecision(ctx, settings, modelId, e, accepted);
      if demo.Some? then Immediate(demo.value)
      else
        Immediate(EmptyDecision(accepted, InsufficientData,
                                if e.quality.gazeValid == 0.0 then InsufficientValidSignal else NoEligibleProduct,
                                e.quality, e.variant))
    else
      Dispatch(Request(e, ctx.products, visual, if visual.Some? then ctx.matching else None))
  }

  /** The same computation as the original performs it, with its two aggregation loops. */
  method PrepareCompletion(ctx: SessionContext, observations: seq<Frame>, hits: map<Key, seq<Hit>>, settings: Settings,
                           modelId: string, accepted: Acceptance) returns (p: Prepared)
    requires forall o :: o in observations ==> o.Valid()
    requires ctx.source.Some? ==> ctx.source.value.Valid() && HitsKnown(hits, ctx.source.value.sources)
    ensures p == Prepare(ctx, observations, hits, settings, modelId, accepted)
  {
    hide Summarized, Built, HitsKnown, Finish, Frame.Valid, CatalogOrder;
    if observations == [] {
      return Immediate(EmptyDecision(accepted, InsufficientData, InsufficientValidSignal, NoQuality, settings.inputVariant));
    }
    var summarized := SummarizeObservations(observations, MappingMetadata(ctx), CatalogOrder(ctx.products),
                                            settings.inputVariant);
    if summarized.Err? {
      return Refused;
    }
    var visual: Option<VisualEvidence> := None;
    if ctx.source.Some? {
      var built := BuildSourceVisualEvidence(observations, hits, ctx.source.value.sources);
      if built.Err? {
        return Refused;
      }
      visual := built.value;
    }
    p := Finish(ctx, settings, modelId, accepted, summarized.value, visual);
  }

  // ----- Dictionary order does not matter -----

  lemma OrderedUnique(a: seq<Frame>, b: seq<Frame>)
    requires multiset(a) == multiset(b) && UniqueSequences(multiset(a))
    ensures Ordered(a) == Ordered(b)
  {
    FrameOrderTotal(multiset(a));
    SortPermutationInvariant(FrameLess, a, b);
  }

  lemma SummarizedIgnoresOrder(a: seq<Frame>, b: seq<Frame>, aoi: Option<Aoi.Metadata>, ids: seq<string>, input: Variant)
    requires multiset(a) == multiset(b) && UniqueSequences(multiset(a))
    requires (forall o :: o in a ==> o.Valid()) && (forall o :: o in b ==> o.Valid())
    ensures Summarized(a, aoi, ids, input) == Summarized(b, aoi, ids, input)
  {
    hide Enriched, CatalogIds, WindowsOf, Summaries, EligibleIds, Quality, Frame.Valid, Ordered, UniqueSequences;
    OrderedUnique(a, b);
  }

  lemma BuiltIgnoresOrder(a: seq<Frame>, b: seq<Frame>, hits: map<Key, seq<Hit>>, sources: seq<Definition>)
    requires multiset(a) == multiset(b) && UniqueSequences(multiset(a)) && HitsKnown(hits, sources)
    ensures Built(a, hits, sources) == Built(b, hits, sources)
  {
    hide HitsKnown, HitIds, SummariesFor, EvidenceFrom, AmbiguousCount, Ordered, UniqueSequences;
    OrderedUnique(a, b);
  }

  /** Whatever order the dictionary yields its frames in, the prepared outcome is the same. */
  lemma PrepareIgnoresOrder(ctx: SessionContext, b: Buffer, a: seq<Frame>, a': seq<Frame>, settings: Settings,
                            modelId: string, accepted: Acceptance)
    requires BufferInv(ctx, b) && Enumerates(a, b.observations) && Enumerates(a', b.observations)
    requires (forall o :: o in a ==> o.Valid()) && (forall o :: o in a' ==> o.Valid())
    requires ctx.source.Some? ==> HitsKnown(b.sourceHits, ctx.source.value.sources)
    ensures Prepare(ctx, a, b.sourceHits, settings, modelId, accepted) ==
      Prepare(ctx, a', b.sourceHits, settings, modelId, accepted)
  {
    hide Enumerates, Finish, HitsKnown, Frame.Valid, UniqueSequences, BufferInv, Summarized, Built, Ordered;
    EnumerationsAgree(a, a', b.observations);
    SameLength(a, a');
    BufferSequences(ctx, b, a);
    SummarizedIgnoresOrder(a, a', MappingMetadata(ctx), CatalogOrder(ctx.products), settings.inputVariant);
    if ctx.source.Some? {
      BuiltIgnoresOrder(a, a', b.sourceHits, ctx.source.value.sources);
    }
  }

  lemma BufferSequences(ctx: SessionContext, b: Buffer, observations: seq<Frame>)
    requires BufferInv(ctx, b) && Enumerates(observations, b.observations)
    ensures UniqueSequences(multiset(observations))
  {
    hide FramesValid, OffsetsForward, VideoTimeForward, LastVideoTimes, SourceHits, BatchTables, HighestEpoch;
    SequencesUnique(observations, b.observations, b.sequenceIndex);
  }
}
