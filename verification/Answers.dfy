/**
 Which jobs can be answered at all: for every dispatched request, exactly when some reply passes the gate.
 */
module Answers {
  import opened Common
  import opened Observations
  import opened RunDecomposition
  import opened SourceAoi
  import opened Ingestion
  import opened Evidence
  import opened EvidenceSummary
  import opened SourceEvidence
  import opened Snapshots
  import opened Gate
  import opened Completion
  import opened Grounding
  import opened CompletionFacts
  import opened Stub
  import Aoi = AoiMetadata

  /** What a request must offer for some reply to pass. */
  ghost predicate Answerable(request: Request) {
    if request.source.Some? then exists m :: m in request.MatchingProducts() && Overlaps(request.source.value, m)
    else request.evidence.variant != B || request.LowSignal() || exists product, id :: Resolves(request, product, id)
  }

  ghost predicate SomeReplyPasses(request: Request, diagnosis: string -> bool) {
    exists o: Output :: Admits(request, diagnosis, o)
  }

  /** The scan that flags nothing. */
  function Harmless(): string -> bool {
    _ => false
  }

  // ----- Wording -----

  /** The same reply in other words: one text for all of its explanations. */
  function Reworded(o: Output, text: string): Output {
    o.(reason := text, style := o.style.(summary := text), evidence := RewordedItems(o.evidence, text))
  }

  function RewordedItems(items: seq<Item>, text: string): (r: seq<Item>)
    ensures |r| == |items| && forall i :: 0 <= i < |items| ==> r[i] == items[i].(statement := text)
  {
    seq(|items|, i requires 0 <= i < |items| => items[i].(statement := text))
  }

  /** A reply with `n` items that says `text` everywhere, as the scan sees it. */
  function Wording(text: string, n: nat): string {
    text + " " + text + Repeated(text, n)
  }

  function Repeated(text: string, n: nat): string {
    if n == 0 then "" else " " + text + Repeated(text, n - 1)
  }

  /** The scan lets this text through, however often it is repeated in one reply. */
  predicate Spares(diagnosis: string -> bool, text: string) {
    1 <= |text| <= 240 && forall n :: 1 <= n <= 12 ==> !diagnosis(Wording(text, n))
  }

  lemma {:induction false} JoinedWording(items: seq<Item>, text: string)
    requires forall item :: item in items ==> item.statement == text
    ensures Joined(items) == Repeated(text, |items|)
  {
    if items != [] {
      assert items[0] in items;
      JoinedWording(items[1..], text);
    }
  }

  /** Whatever passes the harmless scan passes any scan in words that this scan spares. */
  lemma RewordedPasses(request: Request, diagnosis: string -> bool, o: Output, text: string)
    requires Admits(request, Harmless(), o) && Spares(diagnosis, text)
    ensures Admits(request, diagnosis, Reworded(o, text))
  {
    hide CatalogAgrees, ProductIds, RefAdmitted, Wording, Spares;
    var n := Reworded(o, text);
    RewordedValid(o, text, diagnosis);
    RewordedSays(o, text);
    forall item | item in n.evidence ensures item.productId == n.productId && ItemAdmitted(request, n.productId, item) {
      var i :| 0 <= i < |n.evidence| && n.evidence[i] == item;
      assert o.evidence[i] in o.evidence && ItemAdmitted(request, o.productId, o.evidence[i]);
    }
    RewordedPath(request, o, text);
  }

  lemma RewordedValid(o: Output, text: string, diagnosis: string -> bool)
    requires o.Valid() && Spares(diagnosis, text)
    ensures Reworded(o, text).Valid() && !diagnosis(CombinedText(Reworded(o, text)))
  {
    hide CONTROLLED_TAGS;
    var n := Reworded(o, text);
    forall item | item in n.evidence ensures item.Valid() && item.statement == text {
      var i :| 0 <= i < |n.evidence| && n.evidence[i] == item;
      assert o.evidence[i] in o.evidence;
    }
    JoinedWording(n.evidence, text);
    assert CombinedText(n) == Wording(text, |n.evidence|);
  }

  lemma RewordedSays(o: Output, text: string)
    ensures forall code :: Reworded(o, text).Says(code) <==> o.Says(code)
  {
    var n := Reworded(o, text);
    forall code ensures n.Says(code) <==> o.Says(code) {
      if item :| item in o.evidence && item.code == code {
        var i :| 0 <= i < |o.evidence| && o.evidence[i] == item;
        assert n.evidence[i] in n.evidence;
      }
      if item :| item in n.evidence && item.code == code {
        var i :| 0 <= i < |n.evidence| && n.evidence[i] == item;
        assert o.evidence[i] in o.evidence;
      }
    }
  }

  lemma RewordedPath(request: Request, o: Output, text: string)
    requires PathAdmits(o, request)
    ensures PathAdmits(Reworded(o, text), request)
  {
    hide Overlaps, EligibleProducts, Output.Says;
    RewordedSays(o, text);
    var n := Reworded(o, text);
    forall item | item in n.evidence ensures exists k :: k in o.evidence && k.code == item.code {
      var i :| 0 <= i < |n.evidence| && n.evidence[i] == item;
      assert o.evidence[i] in o.evidence;
    }
  }

  // ----- A reply that passes is answerable -----

  lemma PassingIsAnswerable(request: Request, diagnosis: string -> bool, o: Output)
    requires Admits(request, diagnosis, o)
    ensures Answerable(request)
  {
    hide CombinedText, TagsControlled, ProductIds, LastFrame, OneCandidate, LastWindow, Overlaps, MatchingIds,
      EligibleProducts, VisualEvidence.GroundedFrameIds;
    if request.source.None? && request.evidence.variant == B && !request.LowSignal() {
      var item := o.evidence[0];
      assert item in o.evidence && item.Valid() && ItemAdmitted(request, o.productId, item);
      var ref := item.refs[0];
      assert ref in item.refs && RefAdmitted(request, o.productId, item.code, ref);
      assert Resolves(request, o.productId, ref.refId);
    }
  }

  // ----- An answerable request has a reply that passes -----

  /** A plain reply: one tag of the product, and the given grounds. */
  function Reply(p: Product, codes: seq<ReasonCode>, evidence: seq<Item>): Output
    requires p.controlledTags != []
  {
    Output(p.productId, STUB_TEXT, codes, evidence, Style([p.controlledTags[0]], STUB_TEXT), FocusedSingleProduct)
  }

  lemma ReplyPasses(request: Request, p: Product, codes: seq<ReasonCode>, evidence: seq<Item>)
    requires ProfileOf(request.products, p.productId) == Some(p) && p.Valid() && CatalogAgrees(request)
    requires 1 <= |codes| <= 6 && Distinct(codes) && 1 <= |evidence| <= 12
    requires forall item :: item in evidence ==>
               item.Valid() && item.productId == p.productId && ItemAdmitted(request, p.productId, item)
    requires PathAdmits(Reply(p, codes, evidence), request)
    ensures SomeReplyPasses(request, Harmless())
  {
    hide ItemAdmitted, Item.Valid, PathAdmits, CombinedText, CatalogAgrees, CONTROLLED_TAGS;
    var o := Reply(p, codes, evidence);
    KnownProduct(request.products, p.productId);
    assert p.controlledTags[0] in p.controlledTags;
    assert Admits(request, Harmless(), o);
  }

  lemma FrameItem(request: Request, code: EvidenceCode, product: string, id: string) returns (item: Item)
    ensures item == Item(code, product, [Ref(FrameRef, id)], STUB_TEXT) && item.Valid()
    ensures ItemAdmitted(request, product, item) <==> RefAdmitted(request, product, code, Ref(FrameRef, id))
  {
    hide RefAdmitted;
    item := Item(code, product, [Ref(FrameRef, id)], STUB_TEXT);
    assert item.refs[0] in item.refs;
    assert forall ref :: ref in item.refs ==> ref == Ref(FrameRef, id);
  }

  lemma SourceReply(request: Request, m: MatchingProduct)
    requires SourceRequest(request) && m in request.MatchingProducts() && Overlaps(request.source.value, m)
    requires request.source.value.GroundedFrameIds() != {}
    ensures SomeReplyPasses(request, Harmless())
  {
    hide Overlaps, VisualEvidence.GroundedFrameIds, SomeReplyPasses, Product.Valid, Item.Valid;
    var id :| id in request.source.value.GroundedFrameIds();
    MatchingFound(request.MatchingProducts(), m);
    KnownProduct(request.products, m.productId);
    var p := ProfileOf(request.products, m.productId).value;
    var a := FrameItem(request, ObservedAttention, p.productId, id);
    var b := FrameItem(request, ProductTagMatch, p.productId, id);
    ProductHasTags(p);
    var o := Reply(p, [ObservedAttentionLead, CatalogTagAlignment], [a, b]);
    assert a in o.evidence && b in o.evidence;
    ReplyPasses(request, p, o.reasonCodes, [a, b]);
  }

  lemma ProductHasTags(p: Product)
    requires p.Valid()
    ensures p.controlledTags != []
  {
  }

  lemma LowSignalReply(request: Request, p: Product, id: string)
    requires request.LowSignal() && ProfileOf(request.products, p.productId) == Some(p) && p.Valid()
    requires LastFrame(request.Timeline(), id).Some?
    ensures SomeReplyPasses(request, Harmless())
  {
    hide SomeReplyPasses, Product.Valid, Item.Valid, ProfileOf;
    var item := FrameItem(request, DataQualityCode, p.productId, id);
    ProductHasTags(p);
    var o := Reply(p, [CatalogTagAlignment], [item]);
    assert item in o.evidence;
    ReplyPasses(request, p, o.reasonCodes, [item]);
  }

  lemma FrameReply(request: Request, p: Product, id: string)
    requires request.source.None? && request.evidence.variant == B && !request.LowSignal()
    requires ProfileOf(request.products, p.productId) == Some(p) && p.Valid()
    requires Resolves(request, p.productId, id) && p.productId in EligibleProducts(request.evidence)
    ensures SomeReplyPasses(request, Harmless())
  {
    hide SomeReplyPasses, Product.Valid, Item.Valid, ProfileOf, OneCandidate, LastFrame, EligibleProducts;
    var item := FrameItem(request, ObservedAttention, p.productId, id);
    ProductHasTags(p);
    ReplyPasses(request, p, [ObservedAttentionLead], [item]);
  }

  // ----- What dispatch guarantees -----

  lemma {:induction false} LastFrameFinds(frames: seq<Frame>, f: Frame)
    requires f in frames
    ensures LastFrame(frames, f.frameId).Some?
  {
  }

  /** On the source path, what was dispatched has hit frames. */
  lemma SourceHasFrames(ctx: SessionContext, b: Buffer, observations: seq<Frame>, settings: Settings, modelId: string,
                        request: Request)
    requires Dispatches(ctx, b, observations, settings, modelId, request) && request.source.Some?
    ensures request.source.value.GroundedFrameIds() != {}
  {
    hide Summarized, Prepare, HitsKnown, BufferInv, Ordered, Frame.Valid, Admissible, Ready, SourceConserves, UnhitCount,
      FeatureScores, Weights, Enumerates, ContextValid, VisualEvidence.FitsLimits, FrameIdsOf, DwellUpTo, ReturnCount;
    DispatchParts(ctx, b, observations, settings, modelId, request);
    DispatchVisual(ctx, b, observations, settings, modelId, request);
    var e := request.source.value;
    SourceEvidenceConserves(observations, b.sourceHits, ctx.source.value.sources);
    assert e.sources[0] in e.sources && SourceConserves(b.sourceHits, Ordered(observations), e.sources[0]);
    SourceListsFrames(b.sourceHits, Ordered(observations), e, e.sources[0]);
  }

  lemma SourceListsFrames(cache: map<Key, seq<Hit>>, fs: seq<Frame>, e: VisualEvidence, s: SourceSummary)
    requires s in e.sources && SourceConserves(cache, fs, s)
    ensures e.GroundedFrameIds() != {}
  {
    hide RunsOf, DwellUpTo, SegmentsWith, SingleSource;
    assert s.frameIds[0] in s.frameIds;
    assert s.frameIds[0] in e.GroundedFrameIds();
  }

  /** A frame that resolves makes its product eligible, hence one of the catalog. */
  lemma ResolvedIsEligible(ctx: SessionContext, b: Buffer, observations: seq<Frame>, settings: Settings, modelId: string,
                           request: Request, product: string, id: string)
    requires Dispatches(ctx, b, observations, settings, modelId, request)
    requires request.source.None? && ctx.source.None? && Resolves(request, product, id)
    ensures product in EligibleProducts(request.evidence) && product in ProductIds(request.products)
  {
    hide Dispatches, Summarized, Frame.Valid, Admissible, Ordered, Enriched, Quality, WindowsOf, CatalogIds, Summaries,
      EligibleIds, Ready, ProductIds, ContextValid, CatalogOrder, LastFrame, OneCandidate, Aoi.MappedProduct,
      EligibleProducts;
    DispatchParts(ctx, b, observations, settings, modelId, request);
    DispatchContext(ctx, b, observations, settings, modelId, request);
    SummarizedParts(observations, MappingMetadata(ctx), CatalogOrder(ctx.products), settings.inputVariant);
    var fs := FramesOfSnapshot(ctx, observations);
    var ids := CatalogIds(CatalogOrder(ctx.products), fs);
    var f := LastFrame(request.Timeline(), id).value;
    OneCandidateMapped(f, product);
    var i :| 0 <= i < |fs| && fs[i] == f;
    MappedFramesAreEligible(ctx, observations, i);
    EligibleFrom(fs, i);
    CatalogFits(ctx, fs);
    EligibleMember(fs, ids, product);
    EligibleProductsAre(fs, ids, request.evidence);
  }

  lemma EligibleMember(fs: seq<Frame>, ids: seq<string>, p: string)
    requires Eligible(fs, p) && p in ids
    ensures p in EligibleIds(fs, ids)
  {
  }

  lemma LegacyReply(ctx: SessionContext, b: Buffer, observations: seq<Frame>, settings: Settings, modelId: string,
                    request: Request)
    requires Dispatches(ctx, b, observations, settings, modelId, request)
    requires request.source.None? && Answerable(request)
    ensures SomeReplyPasses(request, Harmless())
  {
    hide Dispatches, Admits, SomeReplyPasses, Resolves, Recommend, CombinedText, ContextValid, LegacyRequest, LastFrame,
      ProfileOf, ProductIds, Product.Valid, EligibleProducts;
    if request.evidence.variant != B {
      StubPassesWithWindows(ctx, b, observations, settings, modelId, request, Harmless());
      assert Admits(request, Harmless(), Recommend(request).value);
      PassesSomehow(request, Harmless(), Recommend(request).value);
    } else {
      RequestCatalog(ctx, b, observations, settings, modelId, request);
      if request.LowSignal() {
        var f := TimelineStarts(ctx, b, observations, settings, modelId, request);
        LastFrameFinds(request.Timeline(), f);
        var p := request.products[0];
        KnownFirst(request.products);
        LowSignalReply(request, ProfileOf(request.products, p.productId).value, f.frameId);
      } else {
        var product, id :| Resolves(request, product, id);
        NoSourceSession(ctx, b, observations, settings, modelId, request, product, id);
        ResolvedIsEligible(ctx, b, observations, settings, modelId, request, product, id);
        KnownProduct(request.products, product);
        FrameReply(request, ProfileOf(request.products, product).value, id);
      }
    }
  }

  lemma PassesSomehow(request: Request, diagnosis: string -> bool, o: Output)
    requires Admits(request, diagnosis, o)
    ensures SomeReplyPasses(request, diagnosis)
  {
    hide Admits;
  }

  lemma KnownFirst(products: seq<Product>)
    requires products != []
    ensures ProfileOf(products, products[0].productId).Some?
  {
    assert products[0] in products;
    KnownProduct(products, products[0].productId);
  }

  lemma RequestCatalog(ctx: SessionContext, b: Buffer, observations: seq<Frame>, settings: Settings, modelId: string,
                       request: Request)
    requires Dispatches(ctx, b, observations, settings, modelId, request)
    ensures request.products != [] && forall p :: p in request.products ==> p.Valid()
    ensures forall id :: ProfileOf(request.products, id).Some? ==>
              ProfileOf(request.products, id).value.Valid() && ProfileOf(request.products, id).value.productId == id
  {
    hide Dispatches, Summarized, Frame.Valid, Admissible, Ready, ProductIds, Aoi.WellFormed, AoiNamesCatalog, SourceBound,
      MatchingIds, UniqueMatching, Product.Valid;
    DispatchParts(ctx, b, observations, settings, modelId, request);
    DispatchContext(ctx, b, observations, settings, modelId, request);
  }

  lemma TimelineStarts(ctx: SessionContext, b: Buffer, observations: seq<Frame>, settings: Settings, modelId: string,
                       request: Request) returns (f: Frame)
    requires Dispatches(ctx, b, observations, settings, modelId, request) && request.evidence.variant == B
    ensures f in request.Timeline()
  {
    hide Dispatches, Summarized, Frame.Valid, Admissible, Ready, Enriched, WindowsOf, Quality, Summaries, CatalogIds,
      EligibleIds, Ordered;
    DispatchParts(ctx, b, observations, settings, modelId, request);
    SummarizedParts(observations, MappingMetadata(ctx), CatalogOrder(ctx.products), settings.inputVariant);
    f := request.Timeline()[0];
  }

  /** Where a frame resolves, frames were mapped, so the session has no source metadata. */
  lemma NoSourceSession(ctx: SessionContext, b: Buffer, observations: seq<Frame>, settings: Settings, modelId: string,
                        request: Request, product: string, id: string)
    requires Dispatches(ctx, b, observations, settings, modelId, request) && Resolves(request, product, id)
    ensures ctx.source.None?
  {
    hide Dispatches, Summarized, Frame.Valid, Admissible, Ready, Enriched, WindowsOf, Quality, Summaries, CatalogIds,
      EligibleIds, Ordered, LastFrame, OneCandidate, Aoi.MappedProduct;
    if ctx.source.Some? {
      DispatchParts(ctx, b, observations, settings, modelId, request);
      SummarizedParts(observations, MappingMetadata(ctx), CatalogOrder(ctx.products), settings.inputVariant);
      NoMetadataNoWindows(Ordered(observations));
      var f := LastFrame(request.Timeline(), id).value;
      OneCandidateMapped(f, product);
      assert false;
    }
  }

  /**
   For every dispatched request and every scan for diagnoses that spares some text: some reply passes the
   gate exactly if the request is answerable. On the window path it always is. On the frame path it is if
   there is no gaze at all, or if for some frame id the last timeline frame with that id maps by one
   candidate only. On the source path some product must share a feature with what was observed.
   */
  lemma AnswerableExactly(ctx: SessionContext, b: Buffer, observations: seq<Frame>, settings: Settings, modelId: string,
                          request: Request, diagnosis: string -> bool, text: string)
    requires Dispatches(ctx, b, observations, settings, modelId, request) && Spares(diagnosis, text)
    ensures SomeReplyPasses(request, diagnosis) <==> Answerable(request)
  {
    hide Dispatches, Admits, Answerable, Spares;
    if SomeReplyPasses(request, diagnosis) {
      var o: Output :| Admits(request, diagnosis, o);
      PassingIsAnswerable(request, diagnosis, o);
    }
    if Answerable(request) {
      AnswerableIsAnswered(ctx, b, observations, settings, modelId, request);
      var o: Output :| Admits(request, Harmless(), o);
      RewordedPasses(request, diagnosis, o, text);
    }
  }

  lemma AnswerableIsAnswered(ctx: SessionContext, b: Buffer, observations: seq<Frame>, settings: Settings, modelId: string,
                             request: Request)
    requires Dispatches(ctx, b, observations, settings, modelId, request) && Answerable(request)
    ensures SomeReplyPasses(request, Harmless())
  {
    hide Dispatches, Admits, Answerable, Overlaps, UniqueMatching, VisualEvidence.GroundedFrameIds, SourceRequest,
      SomeReplyPasses;
    if request.source.Some? {
      DispatchedSource(ctx, b, observations, settings, modelId, request);
      SourceHasFrames(ctx, b, observations, settings, modelId, request);
      var m := Overlapping(request);
      SourceReply(request, m);
    } else {
      LegacyReply(ctx, b, observations, settings, modelId, request);
    }
  }

  lemma Overlapping(request: Request) returns (m: MatchingProduct)
    requires request.source.Some? && Answerable(request)
    ensures m in request.MatchingProducts() && Overlaps(request.source.value, m)
  {
    hide Overlaps;
    m :| m in request.MatchingProducts() && Overlaps(request.source.value, m);
  }

  /** No frame id resolves, although some frame carries gaze. */
  ghost predicate NothingResolves(request: Request) {
    && request.source.None? && request.evidence.variant == B && request.evidence.quality.gazeValid != 0.0
    && forall product, id :: !Resolves(request, product, id)
  }

  /** Whatever the scan, such a job cannot be answered. */
  lemma NothingToAnswerWith(request: Request, diagnosis: string -> bool)
    requires NothingResolves(request)
    ensures !SomeReplyPasses(request, diagnosis)
  {
    hide Admits, Resolves;
    if o: Output :| Admits(request, diagnosis, o) {
      PassingIsAnswerable(request, diagnosis, o);
      assert false;
    }
  }

  /** A dispatched legacy job that cannot be answered is exactly such a job, for any scan that spares some text. */
  lemma HopelessJobs(ctx: SessionContext, b: Buffer, observations: seq<Frame>, settings: Settings, modelId: string,
                     request: Request, diagnosis: string -> bool, text: string)
    requires Dispatches(ctx, b, observations, settings, modelId, request) && request.source.None?
    requires Spares(diagnosis, text)
    ensures !SomeReplyPasses(request, diagnosis) <==> NothingResolves(request)
  {
    hide Dispatches, SomeReplyPasses, Resolves, Spares;
    AnswerableExactly(ctx, b, observations, settings, modelId, request, diagnosis, text);
  }
}
