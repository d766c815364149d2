/**
 The output gate (`v2_central.validate_central_output`) and the decision data model. The model's reply
 is an arbitrary value: nothing about it is assumed.
 */
module Gate {
  import opened Common
  import opened Observations
  import opened Evidence
  import opened EvidenceSummary
  import opened Ingestion
  import opened SourceAoi
  import opened SourceEvidence
  import opened Matching

  datatype ReasonCode =
    | ObservedAttentionLead
    | ReturnCandidateSupport
    | MovementPatternSupport
    | ObservableActionSupport
    | CatalogTagAlignment
    | SufficientDataQuality

  datatype RefKind = WindowRef | FrameRef

  datatype Ref = Ref(kind: RefKind, refId: string)

  datatype Item = Item(code: EvidenceCode, productId: string, refs: seq<Ref>, statement: string) {
    predicate Valid() {
      1 <= |refs| <= 12 && Distinct(refs) && 1 <= |statement| <= 240
    }
  }

  datatype Tendency = FocusedSingleProduct | ComparativeExploration | BroadExploration

  datatype Style = Style(matchedTags: seq<string>, summary: string) {
    predicate Valid() {
      1 <= |matchedTags| <= 8 && Distinct(matchedTags) && (forall t :: t in matchedTags ==> t in CONTROLLED_TAGS)
      && 1 <= |summary| <= 240
    }
  }

  /** `CentralRecommendationOutputV2` */
  datatype Output = Output(productId: string, reason: string, reasonCodes: seq<ReasonCode>, evidence: seq<Item>,
                           style: Style, tendency: Tendency)
  {
    predicate Valid() {
      && 1 <= |reason| <= 400 && 1 <= |reasonCodes| <= 6 && Distinct(reasonCodes)
      && 1 <= |evidence| <= 12 && (forall item :: item in evidence ==> item.Valid())
      && style.Valid()
    }

    predicate Says(code: EvidenceCode) {
      exists item :: item in evidence && item.code == code
    }
  }

  /** `CentralRecommendationRequestV2` */
  datatype Request = Request(evidence: EvidenceV2, products: seq<Product>, source: Option<VisualEvidence>,
                             matching: Option<seq<MatchingProduct>>)
  {
    predicate Valid() {
      && evidence.Valid() && 1 <= |products| <= 10
      && (source.Some? <==> matching.Some?) && (matching.Some? ==> |matching.value| == 10)
    }

    function Windows(): seq<Window> {
      if evidence.windows.Some? then evidence.windows.value else []
    }

    function Timeline(): seq<Frame> {
      if evidence.timeline.Some? then evidence.timeline.value else []
    }

    function MatchingProducts(): seq<MatchingProduct> {
      if matching.Some? then matching.value else []
    }

    predicate LowSignal() {
      source.None? && evidence.variant == B && evidence.quality.gazeValid == 0.0
    }
  }

  // ----- Dictionary lookups: the last entry with a key wins -----

  function ProfileOf(products: seq<Product>, id: string): (p: Option<Product>)
    ensures p.Some? ==> p.value in products && p.value.productId == id
    ensures p.None? ==> forall x :: x in products ==> x.productId != id
  {
    if products == [] then None
    else if products[|products| - 1].productId == id then Some(products[|products| - 1])
    else ProfileOf(products[..|products| - 1], id)
  }

  function MatchingOf(products: seq<MatchingProduct>, id: string): (p: Option<MatchingProduct>)
    ensures p.Some? ==> p.value in products && p.value.productId == id
    ensures p.None? ==> forall x :: x in products ==> x.productId != id
  {
    if products == [] then None
    else if products[|products| - 1].productId == id then Some(products[|products| - 1])
    else MatchingOf(products[..|products| - 1], id)
  }

  function LastWindow(windows: seq<Window>, id: string): (w: Option<Window>)
    ensures w.Some? ==> w.value in windows && w.value.windowId == id
    ensures w.None? ==> forall x :: x in windows ==> x.windowId != id
  {
    if windows == [] then None
    else if windows[|windows| - 1].windowId == id then Some(windows[|windows| - 1])
    else LastWindow(windows[..|windows| - 1], id)
  }

  /** The gate keys frames by frame id alone, unlike the store. */
  function LastFrame(frames: seq<Frame>, id: string): (f: Option<Frame>)
    ensures f.Some? ==> f.value in frames && f.value.frameId == id
    ensures f.None? ==> forall x :: x in frames ==> x.frameId != id
  {
    if frames == [] then None
    else if frames[|frames| - 1].frameId == id then Some(frames[|frames| - 1])
    else LastFrame(frames[..|frames| - 1], id)
  }

  // ----- What the gate admits -----

  function ProductIds(products: seq<Product>): set<string> {
    set p | p in products :: p.productId
  }

  function MatchingIds(products: seq<MatchingProduct>): set<string> {
    set p | p in products :: p.productId
  }

  /** Products of the summary with at least one valid gaze observation. */
  function EligibleProducts(evidence: EvidenceV2): set<string> {
    set s | s in evidence.summary && s.gaze.Some? && s.gaze.value.validCount > 0 :: s.productId
  }

  predicate CatalogAgrees(request: Request) {
    request.source.Some? ==> MatchingIds(request.MatchingProducts()) == ProductIds(request.products)
  }

  /** The selected product shares visual features with what was observed. */
  predicate Overlaps(e: VisualEvidence, m: MatchingProduct) {
    SumWorth(AllClaims(m.profile, e)) > 0 && MatchedValues(AllClaims(m.profile, e)) != {}
  }

  predicate SourceAdmits(o: Output, request: Request)
    requires request.source.Some?
  {
    && MatchingOf(request.MatchingProducts(), o.productId).Some?
    && Overlaps(request.source.value, MatchingOf(request.MatchingProducts(), o.productId).value)
    && ObservedAttentionLead in o.reasonCodes && CatalogTagAlignment in o.reasonCodes
    && o.Says(ObservedAttention) && o.Says(ProductTagMatch)
  }

  predicate LowSignalAdmits(o: Output, request: Request) {
    && request.Timeline() != []
    && CatalogTagAlignment in o.reasonCodes && o.Says(DataQualityCode)
    && (forall c :: c in o.reasonCodes ==> c == CatalogTagAlignment)
    && (forall item :: item in o.evidence ==> item.code == DataQualityCode || item.code == ProductTagMatch)
  }

  predicate PathAdmits(o: Output, request: Request) {
    if request.source.Some? then SourceAdmits(o, request)
    else if request.LowSignal() then LowSignalAdmits(o, request)
    else o.productId in EligibleProducts(request.evidence)
  }

  function Joined(items: seq<Item>): string {
    if items == [] then "" else " " + items[0].statement + Joined(items[1..])
  }

  /** The text that is scanned for diagnoses. */
  function CombinedText(o: Output): string {
    o.reason + " " + o.style.summary + Joined(o.evidence)
  }

  predicate TagsControlled(o: Output, products: seq<Product>) {
    && ProfileOf(products, o.productId).Some?
    && o.style.matchedTags != []
    && forall t :: t in o.style.matchedTags ==> t in ProfileOf(products, o.productId).value.controlledTags
  }

  predicate OneCandidate(f: Frame, product: string) {
    && f.attention.value.Some? && |f.attention.value.value.candidates| == 1
    && f.attention.value.value.candidates[0].productId == product
  }

  /** The frame carries the derived fact that the evidence code claims. */
  predicate Derives(f: Frame, code: EvidenceCode) {
    match code
    case ReturnCandidate => f.derived.value.Some? && f.derived.value.value.returnCandidate == Some(true)
    case GazeMovement => f.derived.value.Some? && f.derived.value.value.movement.Some?
    case FaceActionChange => f.derived.value.Some? && f.derived.value.value.ScoreChanges().Some?
    case _ => true
  }

  predicate WindowCode(code: EvidenceCode) {
    code == ObservedAttention || code == ReturnCandidate || code == GazeMovement || code == FaceActionChange
  }

  predicate RefAdmitted(request: Request, product: string, code: EvidenceCode, ref: Ref) {
    if request.source.Some? then
      ref.kind == FrameRef && ref.refId in request.source.value.GroundedFrameIds()
    else if request.evidence.variant == B then
      && ref.kind == FrameRef && LastFrame(request.Timeline(), ref.refId).Some?
      && var f := LastFrame(request.Timeline(), ref.refId).value;
        || (request.evidence.quality.gazeValid == 0.0 && (code == DataQualityCode || code == ProductTagMatch))
        || (OneCandidate(f, product) && Derives(f, code))
    else
      && ref.kind == WindowRef && LastWindow(request.Windows(), ref.refId).Some?
      && var w := LastWindow(request.Windows(), ref.refId).value;
        w.productId == product && (WindowCode(code) ==> code in w.codes)
  }

  predicate ItemAdmitted(request: Request, product: string, item: Item) {
    forall ref :: ref in item.refs ==> RefAdmitted(request, product, item.code, ref)
  }

  /** Everything the gate asks of an output. `diagnosis` is the opaque term scan. */
  predicate Admits(request: Request, diagnosis: string -> bool, o: Output) {
    && o.Valid() && o.productId in ProductIds(request.products)
    && CatalogAgrees(request) && PathAdmits(o, request)
    && !diagnosis(CombinedText(o)) && TagsControlled(o, request.products)
    && (forall item :: item in o.evidence ==> item.productId == o.productId)
    && (forall item :: item in o.evidence ==> ItemAdmitted(request, o.productId, item))
  }

  // ----- What an admitted reply is bound to -----

  /** There are tags, and a catalog product of that id has them all. */
  ghost predicate Tagged(products: seq<Product>, id: string, tags: seq<string>) {
    tags != [] && exists p :: p in products && p.productId == id && forall t :: t in tags ==> t in p.controlledTags
  }

  /** What a reply has to claim, and may not claim, given where its request's evidence came from. */
  ghost predicate Claims(request: Request, id: string, codes: seq<ReasonCode>, evidence: seq<Item>) {
    if request.source.Some? then
      && ObservedAttentionLead in codes && CatalogTagAlignment in codes
      && (exists item :: item in evidence && item.code == ObservedAttention)
      && (exists item :: item in evidence && item.code == ProductTagMatch)
    else if request.evidence.variant == B && request.evidence.quality.gazeValid == 0.0 then
      && codes == [CatalogTagAlignment]
      && (exists item :: item in evidence && item.code == DataQualityCode)
      && (forall item :: item in evidence ==> item.code == DataQualityCode || item.code == ProductTagMatch)
    else exists s :: s in request.evidence.summary && s.productId == id && s.gaze.Some? && s.gaze.value.validCount > 0
  }

  /** The scan flags every text that contains this one. */
  ghost predicate FlagsWithin(diagnosis: string -> bool, text: string) {
    forall a, b :: diagnosis(a + text + b)
  }

  lemma OnlyCode(codes: seq<ReasonCode>, code: ReasonCode)
    requires Distinct(codes) && codes != [] && forall c :: c in codes ==> c == code
    ensures codes == [code]
  {
    assert codes[0] in codes && codes[|codes| - 1] in codes;
  }

  /** Every statement is part of the scanned text. */
  lemma {:induction false} JoinedHolds(items: seq<Item>, k: nat) returns (a: string, b: string)
    requires k < |items|
    ensures Joined(items) == a + items[k].statement + b
  {
    if k == 0 {
      a, b := " ", Joined(items[1..]);
    } else {
      a, b := JoinedHolds(items[1..], k - 1);
      a := " " + items[0].statement + a;
    }
  }

  lemma CombinedHolds(o: Output, diagnosis: string -> bool)
    requires !diagnosis(CombinedText(o))
    ensures !FlagsWithin(diagnosis, o.reason) && !FlagsWithin(diagnosis, o.style.summary)
    ensures forall item :: item in o.evidence ==> !FlagsWithin(diagnosis, item.statement)
  {
    assert CombinedText(o) == "" + o.reason + (" " + o.style.summary + Joined(o.evidence));
    assert CombinedText(o) == (o.reason + " ") + o.style.summary + Joined(o.evidence);
    forall k | 0 <= k < |o.evidence| ensures !FlagsWithin(diagnosis, o.evidence[k].statement) {
      var a, b := JoinedHolds(o.evidence, k);
      assert CombinedText(o) == (o.reason + " " + o.style.summary + a) + o.evidence[k].statement + b;
    }
  }

  /**
   An admitted reply bears tags of the product it names, claims what its request's evidence demands and nothing
   that it excludes, and none of its texts is one that the scan flags wherever it stands.
   */
  lemma AdmittedClaims(request: Request, diagnosis: string -> bool, o: Output)
    requires Admits(request, diagnosis, o)
    ensures Tagged(request.products, o.productId, o.style.matchedTags)
    ensures Claims(request, o.productId, o.reasonCodes, o.evidence)
    ensures !FlagsWithin(diagnosis, o.reason) && !FlagsWithin(diagnosis, o.style.summary)
    ensures forall item :: item in o.evidence ==> !FlagsWithin(diagnosis, item.statement)
  {
    hide ItemAdmitted, CatalogAgrees, CombinedText, FlagsWithin, Overlaps, Item.Valid, Style.Valid;
    CombinedHolds(o, diagnosis);
    if request.source.None? && request.LowSignal() {
      OnlyCode(o.reasonCodes, CatalogTagAlignment);
    }
  }

  /** Catalog ids are unique, so the lookup finds the product itself: its tags decide, both ways. */
  lemma TagsControlledMeans(o: Output, products: seq<Product>)
    requires forall i, j :: 0 <= i < j < |products| ==> products[i].productId != products[j].productId
    ensures TagsControlled(o, products) <==> Tagged(products, o.productId, o.style.matchedTags)
  {
  }

  datatype GateError = InvalidModelOutput | CatalogMismatch

  lemma KnownProduct(products: seq<Product>, id: string)
    ensures ProfileOf(products, id).Some? <==> id in ProductIds(products)
  {
  }

  lemma KnownMatching(request: Request, id: string)
    requires request.source.Some? && CatalogAgrees(request) && id in ProductIds(request.products)
    ensures MatchingOf(request.MatchingProducts(), id).Some?
  {
    assert id in MatchingIds(request.MatchingProducts());
  }

  /** The checks that depend on where the evidence came from. */
  method CheckPath(o: Output, request: Request) returns (error: Option<GateError>)
    requires o.productId in ProductIds(request.products)
    ensures error.None? <==> CatalogAgrees(request) && PathAdmits(o, request)
    ensures error == Some(CatalogMismatch) <==> !CatalogAgrees(request)
  {
    hide Overlaps, EligibleProducts, ProductIds, MatchingIds, AllClaims;
    if request.source.Some? {
      if MatchingIds(request.MatchingProducts()) != ProductIds(request.products) {
        return Some(CatalogMismatch);
      }
      KnownMatching(request, o.productId);
      var selected := MatchingOf(request.MatchingProducts(), o.productId).value;
      var score, matched := ProductFeatureMatchScore(selected.profile, request.source.value);
      OverlapsIs(request.source.value, selected, score, matched);
      if score == 0 || matched == {} {
        return Some(InvalidModelOutput);
      }
      if ObservedAttentionLead !in o.reasonCodes || CatalogTagAlignment !in o.reasonCodes {
        return Some(InvalidModelOutput);
      }
      if !o.Says(ObservedAttention) || !o.Says(ProductTagMatch) {
        return Some(InvalidModelOutput);
      }
    } else if request.LowSignal() {
      if request.Timeline() == [] {
        return Some(InvalidModelOutput);
      }
      if CatalogTagAlignment !in o.reasonCodes {
        return Some(InvalidModelOutput);
      }
      if !o.Says(DataQualityCode) {
        return Some(InvalidModelOutput);
      }
      if (exists c :: c in o.reasonCodes && c != CatalogTagAlignment)
         || (exists item :: item in o.evidence && item.code != DataQualityCode && item.code != ProductTagMatch) {
        return Some(InvalidModelOutput);
      }
    } else if o.productId !in EligibleProducts(request.evidence) {
      return Some(InvalidModelOutput);
    }
    error := None;
  }

  /** The two loops over the evidence items. */
  method CheckItems(o: Output, request: Request) returns (passed: bool)
    ensures passed <==>
      && (forall item :: item in o.evidence ==> item.productId == o.productId)
      && (forall item :: item in o.evidence ==> ItemAdmitted(request, o.productId, item))
  {
    hide RefAdmitted;
    for i := 0 to |o.evidence|
      invariant forall k :: 0 <= k < i ==> o.evidence[k].productId == o.productId
    {
      if o.evidence[i].productId != o.productId {
        return false;
      }
    }
    for i := 0 to |o.evidence|
      invariant forall k :: 0 <= k < i ==> ItemAdmitted(request, o.productId, o.evidence[k])
    {
      var item := o.evidence[i];
      for j := 0 to |item.refs|
        invariant forall k :: 0 <= k < j ==> RefAdmitted(request, o.productId, item.code, item.refs[k])
      {
        var admitted := CheckRef(request, o.productId, item.code, item.refs[j]);
        if !admitted {
          assert item in o.evidence && item.refs[j] in item.refs;
          return false;
        }
      }
    }
    passed := true;
  }

  /**
   `validate_central_output`. A reply that is no JSON object of the right shape is `None`; one of the
   right shape may still break the bounds of its data model.
   */
  method ValidateCentralOutput(raw: Option<Output>, request: Request, diagnosis: string -> bool)
    returns (r: Result<Output, GateError>)
    ensures r.Ok? <==> raw.Some? && Admits(request, diagnosis, raw.value)
    ensures r.Ok? ==> r.value == raw.value
    ensures r.Ok? ==> Tagged(request.products, r.value.productId, r.value.style.matchedTags)
    ensures r.Ok? ==> Claims(request, r.value.productId, r.value.reasonCodes, r.value.evidence)
    ensures r == Err(CatalogMismatch) <==>
      raw.Some? && raw.value.Valid() && !(raw.value.productId in ProductIds(request.products) && CatalogAgrees(request))
  {
    hide ItemAdmitted, CatalogAgrees, PathAdmits, CombinedText, Output.Valid, ProductIds, Tagged, Claims, FlagsWithin;
    if raw.None? || !raw.value.Valid() {
      return Err(InvalidModelOutput);
    }
    var o := raw.value;
    KnownProduct(request.products, o.productId);
    var profile := ProfileOf(request.products, o.productId);
    if profile.None? {
      return Err(CatalogMismatch);
    }
    var error := CheckPath(o, request);
    if error.Some? {
      return Err(error.value);
    }
    if diagnosis(CombinedText(o)) {
      return Err(InvalidModelOutput);
    }
    if o.style.matchedTags == [] || exists t :: t in o.style.matchedTags && t !in profile.value.controlledTags {
      return Err(InvalidModelOutput);
    }
    var passed := CheckItems(o, request);
    if !passed {
      return Err(InvalidModelOutput);
    }
    AdmittedClaims(request, diagnosis, o);
    r := Ok(o);
  }

  lemma OverlapsIs(e: VisualEvidence, m: MatchingProduct, score: nat, matched: set<string>)
    requires score == SumWorth(AllClaims(m.profile, e)) && matched == MatchedValues(AllClaims(m.profile, e))
    ensures Overlaps(e, m) <==> score > 0 && matched != {}
  {
  }

  /** The inner loop's checks on one reference, in the order in which they raise. */
  method CheckRef(request: Request, product: string, code: EvidenceCode, ref: Ref) returns (admitted: bool)
    ensures admitted == RefAdmitted(request, product, code, ref)
  {
    if request.source.Some? {
      return ref.kind == FrameRef && ref.refId in request.source.value.GroundedFrameIds();
    }
    if request.evidence.variant == B {
      if ref.kind != FrameRef {
        return false;
      }
      var frame := LastFrame(request.Timeline(), ref.refId);
      if frame.None? {
        return false;
      }
      if request.evidence.quality.gazeValid == 0.0 && (code == DataQualityCode || code == ProductTagMatch) {
        return true;
      }
      var f := frame.value;
      if f.attention.value.None? || |f.attention.value.value.candidates| != 1
         || f.attention.value.value.candidates[0].productId != product {
        return false;
      }
      var derived := f.derived.value;
      if code == ReturnCandidate && (derived.None? || derived.value.returnCandidate != Some(true)) {
        return false;
      }
      if code == GazeMovement && (derived.None? || derived.value.movement.None?) {
        return false;
      }
      if code == FaceActionChange && (derived.None? || derived.value.ScoreChanges().None?) {
        return false;
      }
      return true;
    }
    if ref.kind != WindowRef {
      return false;
    }
    var window := LastWindow(request.Windows(), ref.refId);
    if window.None? || window.value.productId != product {
      return false;
    }
    admitted := !WindowCode(code) || code in window.value.codes;
  }

  // ----- Decisions -----

  /**
   `RecommendationAcceptedV2`. Both of its ids are one digest of the process's run scope and the session
   id; the digest is taken to be injective, so the pair stands for it.
   */
  datatype Acceptance = Acceptance(scope: nat, sessionId: string)

  datatype DecisionStatus = Completed | InsufficientData | Failed

  datatype DecisionReason =
    | GroundedProductMatch
    | InsufficientValidSignal
    | NoEligibleProduct
    | ModelUnavailable
    | InvalidOutput
    | CatalogDiffers

  /** `RecommendationDecisionV2` */
  datatype Decision = Decision(accepted: Acceptance, status: DecisionStatus, selected: Option<string>,
                               reason: DecisionReason, reasonCodes: seq<ReasonCode>, evidence: seq<Item>,
                               style: Option<Style>, tendency: Option<Tendency>, quality: DataQuality, variant: Variant)
  {
    /** `enforce_top_one`, with the bounds of the fields */
    predicate Valid() {
      && |reasonCodes| <= 6 && Distinct(reasonCodes)
      && |evidence| <= 12 && (forall item :: item in evidence ==> item.Valid())
      && (style.Some? ==> style.value.Valid())
      && (if status == Completed then
            selected.Some? && reason == GroundedProductMatch && reasonCodes != [] && evidence != []
            && style.Some? && tendency.Some?
          else selected.None? && reasonCodes == [] && evidence == [] && style.None? && tendency.None?)
      && (status == InsufficientData ==> reason == InsufficientValidSignal || reason == NoEligibleProduct)
      && (status == Failed ==> reason == ModelUnavailable || reason == InvalidOutput || reason == CatalogDiffers)
      && (forall item, ref :: item in evidence && ref in item.refs ==>
        ref.kind == if variant == B then FrameRef else WindowRef)
    }
  }

  function CompletedDecision(accepted: Acceptance, o: Output, quality: DataQuality, variant: Variant): Decision {
    Decision(accepted, Completed, Some(o.productId), GroundedProductMatch, o.reasonCodes, o.evidence, Some(o.style),
             Some(o.tendency), quality, variant)
  }

  function EmptyDecision(accepted: Acceptance, status: DecisionStatus, reason: DecisionReason, quality: DataQuality,
                         variant: Variant): Decision
  {
    Decision(accepted, status, None, reason, [], [], None, None, quality, variant)
  }

  /**
   A gate-passing output builds a valid completed decision, with the reference kind that its variant
   requires, exactly when a source-path request is a variant-B request.
   */
  lemma GatePassBuildsDecision(request: Request, diagnosis: string -> bool, o: Output, accepted: Acceptance)
    requires Admits(request, diagnosis, o)
    ensures CompletedDecision(accepted, o, request.evidence.quality, request.evidence.variant).Valid() <==>
      (request.source.Some? ==> request.evidence.variant == B)
  {
    hide CombinedText, PathAdmits, TagsControlled, LastFrame, LastWindow, OneCandidate, CatalogAgrees;
    assert o.evidence[0] in o.evidence;
    var first := o.evidence[0];
    assert first.refs[0] in first.refs;
    RefKinds(request, o.productId, first.code, first.refs[0]);
    forall item, ref | item in o.evidence && ref in item.refs
      ensures ref.kind == if request.source.Some? || request.evidence.variant == B then FrameRef else WindowRef
    {
      RefKinds(request, o.productId, item.code, ref);
    }
  }

  lemma RefKinds(request: Request, product: string, code: EvidenceCode, ref: Ref)
    requires RefAdmitted(request, product, code, ref)
    ensures ref.kind == if request.source.Some? || request.evidence.variant == B then FrameRef else WindowRef
  {
  }

  datatype Reply = Returned(raw: Option<Output>) | ModelFailure(code: string) | UnexpectedFailure

  /** How `run_completion` names a `CentralModelError`. */
  function FailureReason(code: string): DecisionReason {
    if code == "model_unavailable" then ModelUnavailable
    else if code == "catalog_mismatch" then CatalogDiffers
    else InvalidOutput
  }

  /** What a model reply turns into: a completed decision, or a sanitised failure. */
  method DecideReply(reply: Reply, request: Request, diagnosis: string -> bool, accepted: Acceptance)
    returns (d: Decision)
    ensures d.Valid() && d.accepted == accepted && d.status != InsufficientData
    ensures d.quality == request.evidence.quality && d.variant == request.evidence.variant
    ensures d.status == Completed <==>
      && reply.Returned? && reply.raw.Some? && Admits(request, diagnosis, reply.raw.value)
      && (request.source.Some? ==> request.evidence.variant == B)
    ensures d.status == Completed ==>
      d == CompletedDecision(accepted, reply.raw.value, request.evidence.quality, request.evidence.variant)
    ensures reply.ModelFailure? ==>
      && (d.reason == ModelUnavailable <==> reply.code == "model_unavailable")
      && (d.reason == CatalogDiffers <==> reply.code == "catalog_mismatch")
    ensures reply.UnexpectedFailure? ==> d.reason == ModelUnavailable
    ensures reply.Returned? && d.status == Failed ==>
      && (d.reason == CatalogDiffers <==>
          && reply.raw.Some? && reply.raw.value.Valid()
          && !(reply.raw.value.productId in ProductIds(request.products) && CatalogAgrees(request)))
      && (d.reason == ModelUnavailable <==> reply.raw.Some? && Admits(request, diagnosis, reply.raw.value))
  {
    hide CatalogAgrees, ProductIds, Output.Valid, PathAdmits, CombinedText, TagsControlled, ItemAdmitted, Tagged, Claims;
    var quality, variant := request.evidence.quality, request.evidence.variant;
    match reply {
      case UnexpectedFailure =>
        d := EmptyDecision(accepted, Failed, ModelUnavailable, quality, variant);
      case ModelFailure(code) =>
        d := EmptyDecision(accepted, Failed, FailureReason(code), quality, variant);
      case Returned(raw) =>
        var r := ValidateCentralOutput(raw, request, diagnosis);
        if r.Err? {
          d := EmptyDecision(accepted, Failed, if r.error == CatalogMismatch then CatalogDiffers else InvalidOutput,
                             quality, variant);
        } else {
          d := CompletedDecision(accepted, r.value, quality, variant);
          GatePassBuildsDecision(request, diagnosis, r.value, accepted);
          if !d.Valid() {
            d := EmptyDecision(accepted, Failed, ModelUnavailable, quality, variant);
          }
        }
    }
  }
}
