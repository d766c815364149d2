/**
 Concrete sessions on which a promise fails: one catalog product with one approved AOI, and frames that
 are all accepted. They show that none of the exact conditions of the other files is idle.
 */
module Witnesses {
  import opened Common
  import opened Geometry
  import opened Sorting
  import opened Observations
  import opened RunDecomposition
  import opened Ingestion
  import opened Confluence
  import opened Evidence
  import opened EvidenceSummary
  import opened EvidenceFacts
  import opened SourceEvidence
  import opened Snapshots
  import opened Gate
  import opened Completion
  import opened Grounding
  import opened CompletionFacts
  import opened Stub
  import opened Answers
  import opened AcceptedSeries
  import Aoi = AoiMetadata

  // ----- The session -----

  const PLACE := Point(0.0, 0.0)
  const TRIANGLE := [Point(0.0, 0.0), Point(1.0, 0.0), Point(0.0, 1.0)]
  const BAG := Product("bag", ["backpack", "bold", "boston"])
  const BAG_AOI := Aoi.Exposure("aoi", None, 0, 0, 1000, TRIANGLE, "bag", "body", {"bold"})
  const REVIEWED := Aoi.Metadata("m1", "r1", true, 1000, [BAG_AOI])

  /** The nine other products of the catalog. */
  function Others(): seq<Product> {
    seq(9, i requires 0 <= i < 9 => Product("other-" + Padded(i, 2), ["compact", "daily", "leather"]))
  }

  const SHOP := SessionContext("s1", "v1", "m1", "c1", [BAG] + Others(), Some(REVIEWED), None, [], None, false)

  lemma OtherIds(i: nat)
    requires i < 9
    ensures Others()[i].productId != "bag" && Others()[i].Valid()
    ensures forall j :: 0 <= j < i ==> Others()[j].productId != Others()[i].productId
  {
    assert ("other-" + Padded(i, 2))[0] == 'o';
    forall j | 0 <= j < i ensures Others()[j].productId != Others()[i].productId {
      var a, b := "other-" + Padded(j, 2), "other-" + Padded(i, 2);
      assert a[6..] == Padded(j, 2) && b[6..] == Padded(i, 2);
      assert Pow10(2) == 10 * (10 * Pow10(0));
      if a == b {
        PaddedInjective(j, i, 2);
      }
    }
  }

  lemma ShopCatalog()
    ensures |SHOP.products| == MAX_CATALOG && SHOP.products[0] == BAG && "bag" in ProductIds(SHOP.products)
    ensures forall p :: p in SHOP.products ==> p.Valid()
    ensures forall i, j :: 0 <= i < j < |SHOP.products| ==> SHOP.products[i].productId != SHOP.products[j].productId
  {
    hide Others, CONTROLLED_TAGS;
    BagIsValid();
    OthersLength();
    var ps := SHOP.products;
    assert ps[0] in ps;
    forall i, j | 0 <= i < j < |ps| ensures ps[i].productId != ps[j].productId {
      OtherIds(j - 1);
      assert i > 0 ==> ps[i] == Others()[i - 1];
    }
    forall p | p in ps ensures p.Valid() {
      if p != BAG {
        var k :| 0 <= k < 9 && Others()[k] == p;
        OtherIds(k);
      }
    }
  }

  lemma BagIsValid()
    ensures BAG.Valid()
  {
  }

  lemma OthersLength()
    ensures |Others()| == 9
  {
  }

  lemma ShopIsValid()
    ensures ContextValid(SHOP)
  {
    ShopCatalog();
    assert REVIEWED.exposures[0] == BAG_AOI;
    assert Aoi.Placed(BAG_AOI, REVIEWED);
    hide Product.Valid, Others;
  }

  lemma PlaceIsInside()
    ensures Aoi.Contains(BAG_AOI, PLACE, 0)
  {
    var e := Edges(TRIANGLE)[0];
    assert e == Edge(TRIANGLE[2], TRIANGLE[0]);
    assert Cross(PLACE, e.from, e.to) == 0.0;
    assert e in Edges(TRIANGLE) && OnSegment(PLACE, e);
  }

  // ----- Frames -----

  const LOOKED := Modality(Some(Gaze(PLACE, 1.0, "eye", "e1", "k1")), None)
  const SEEN := Modality(Some(Attention(false, Some(PLACE), 1.0, "eye", "e1", "m1", [])), None)
  const SMILED := Modality(Some(Expression(map["smile" := 1.0], 1.0, 1.0, "face", "f1", "t1")), None)

  function Missing<V>(): Modality<V> {
    Modality(None, Some("missing"))
  }

  /** A frame that looks at the bag. Its sequence number is also its time. */
  function Looking(id: string, sequence: nat, epoch: nat, expression: Modality<Expression>, derived: Modality<Derived>): Frame {
    Frame(id, sequence, sequence as real, 0.0, 0, epoch, LOOKED, SEEN, expression, derived)
  }

  // ----- What the frames map to -----

  /** A frame that looks at the place is attributed to the bag, by one candidate. */
  lemma LookingMaps(f: Frame)
    requires f.Valid() && f.gaze == LOOKED && f.attention == SEEN && f.videoTime == 0
    ensures var g := Aoi.Enrich(f, MappingOf(f, Some(REVIEWED)));
      OneCandidate(g, "bag") && Aoi.MappedProduct(g) == Some("bag") && g.gaze == f.gaze
      && g.expression == f.expression && g.derived == f.derived && g.frameId == f.frameId
  {
    hide InPolygon;
    PlaceIsInside();
    assert Aoi.Matches([BAG_AOI], PLACE, 0) == [BAG_AOI] + Aoi.Matches([], PLACE, 0) == [BAG_AOI];
    assert Sort(Aoi.ExposureLess, [BAG_AOI]) == [BAG_AOI];
  }

  /** The frames as aggregation sees them. */
  function AsSeen(os: seq<Frame>): seq<Frame>
    requires forall o :: o in os ==> o.Valid()
  {
    Enriched(os, Some(REVIEWED))
  }

  lemma ShopFrames(os: seq<Frame>, b: Buffer, observations: seq<Frame>)
    requires Series(SHOP, os) && BufferInv(SHOP, b)
    requires Enumerates(os, b.observations) && Enumerates(observations, b.observations)
    ensures Snapshotted(SHOP, b, observations) && |observations| == |os| && (forall o :: o in os ==> o.Valid())
    ensures FramesOfSnapshot(SHOP, observations) == AsSeen(os)
  {
    hide Frame.Valid, Admissible, BufferInv, Enumerates, Enriched;
    ShopIsValid();
    SeriesOrdered(SHOP, os, b, observations);
    SeriesChecked(SHOP, os);
  }

  /** Completing the session escapes, whatever order, model and acceptance. */
  ghost predicate Escapes(b: Buffer, settings: Settings) {
    hide Prepare, ContextValid, BufferInv, Enumerates, HitsKnown;
    forall observations: seq<Frame>, modelId: string, accepted: Acceptance :: Snapshotted(SHOP, b, observations) ==>
      Prepare(SHOP, observations, b.sourceHits, settings, modelId, accepted).Refused?
  }

  lemma RefusedEscapes(os: seq<Frame>, b: Buffer, settings: Settings)
    requires Series(SHOP, os) && BufferInv(SHOP, b) && Enumerates(os, b.observations) && (forall o :: o in os ==> o.Valid())
    requires ExpressionRefused(AsSeen(os), "bag")
             || (settings.inputVariant != B && |RunsOf(Evidence.TrackOf(AsSeen(os)), |AsSeen(os)|)| > MAX_WINDOWS)
    ensures Escapes(b, settings)
  {
    hide Frame.Valid, Admissible, BufferInv, Enumerates, Prepare, ExpressionRefused, RunsOf, Enriched, ContextValid, Series;
    forall observations: seq<Frame>, modelId: string, accepted: Acceptance | Snapshotted(SHOP, b, observations)
      ensures Prepare(SHOP, observations, b.sourceHits, settings, modelId, accepted).Refused?
    {
      ShopFrames(os, b, observations);
      SeriesLength(os);
      AggregationTotal(SHOP, b, observations, settings, modelId, accepted);
      ShopCatalog();
    }
  }

  lemma SeriesLength(os: seq<Frame>)
    requires Series(SHOP, os)
    ensures os != []
  {
  }

  // ----- More than 128 windows -----

  function EpochFrames(n: nat): seq<Frame> {
    seq(n, i requires 0 <= i < n => Looking("frame", i, i, Missing(), Missing()))
  }

  lemma {:induction false} EveryFrameIsARun(t: RunDecomposition.Track, n: nat)
    requires t.Valid() && n <= |t.labels| && forall i :: 0 <= i < n ==> t.labels[i].Some? && t.breaks[i]
    ensures |RunsOf(t, n)| == n
  {
    if n > 0 {
      EveryFrameIsARun(t, n - 1);
      RunsStep(t, n - 1);
    }
  }

  lemma EpochSeries(n: nat)
    requires 1 <= n <= MAX_BATCH_OBSERVATIONS
    ensures Series(SHOP, EpochFrames(n))
  {
  }

  lemma EpochRuns(n: nat)
    requires Series(SHOP, EpochFrames(n))
    ensures forall o :: o in EpochFrames(n) ==> o.Valid()
    ensures |RunsOf(Evidence.TrackOf(AsSeen(EpochFrames(n))), |AsSeen(EpochFrames(n))|)| == n
  {
    hide Series, Aoi.MapFrame, Aoi.MappedProduct, Aoi.Enrich, RunsOf;
    var os := EpochFrames(n);
    var fs := AsSeen(os);
    forall i | 0 <= i < n ensures Aoi.MappedProduct(fs[i]).Some? && BreakAt(fs, i) {
      LookingMaps(os[i]);
      EnrichKeeps(os[i]);
      if i > 0 {
        EnrichKeeps(os[i - 1]);
      }
    }
    EveryFrameIsARun(Evidence.TrackOf(fs), n);
  }

  lemma EnrichKeeps(f: Frame)
    requires f.Valid()
    ensures var g := Aoi.Enrich(f, MappingOf(f, Some(REVIEWED)));
      g.epoch == f.epoch && g.sequence == f.sequence && g.capturedAt == f.capturedAt && g.videoTime == f.videoTime
      && g.derived == f.derived && g.expression == f.expression && g.gaze == f.gaze && g.frameId == f.frameId
  {
    hide Aoi.MapFrame;
  }

  /** 129 frames, each in its own playback epoch: completion escapes in every variant that carries windows. */
  lemma TooManyWindowsEscape(settings: Settings) returns (os: seq<Frame>, b: Buffer)
    requires settings.inputVariant != B
    ensures BatchOf(os).Valid() && Accepts(SHOP, EmptyBuffer, BatchOf(os), b) && |os| == 129
    ensures Enumerates(os, b.observations) && BufferInv(SHOP, b) && Escapes(b, settings)
  {
    hide Series, Accepts, BufferInv, Enumerates, RunsOf, Enriched, Escapes;
    os := EpochFrames(129);
    EpochSeries(129);
    EpochRuns(129);
    b := SeriesAccepted(SHOP, os);
    RefusedEscapes(os, b, settings);
  }

  // ----- Expression summaries that do not fit -----

  function Expressive(e: DerivedExpression): Modality<Derived> {
    Modality(Some(Derived(None, None, Some(e))), None)
  }

  /** A change of "smile" whose map of rates is empty. */
  const RATELESS := DerivedExpression(Some(map["smile" := 0.1]), Some(map[]), [])

  lemma OneFrameSeries(f: Frame)
    requires f.Valid() && Admissible(SHOP, f) && f.sequence == 0 && f.capturedAt == 0.0 && f.sessionOffset == 0.0
    requires f.videoTime == 0
    ensures Series(SHOP, [f])
  {
    hide Frame.Valid, Admissible;
  }

  lemma FirstFrame(f: Frame, p: string)
    requires f.Valid() && Aoi.MappedProduct(AsSeen([f])[0]) == Some(p)
    ensures AsSeen([f])[0].derived == f.derived && AsSeen([f])[0].expression == f.expression
    ensures FramesOf(AsSeen([f]), 1, p) == [AsSeen([f])[0]]
    ensures SignalsOf(AsSeen([f]), 1, p) == FrameSignals(f)
  {
    hide Frame.Valid, Aoi.MapFrame, Aoi.MappedProduct;
    EnrichKeeps(f);
    var fs := AsSeen([f]);
    assert FramesOf(fs, 0, p) == [] && SignalsOf(fs, 0, p) == NoSignals;
    assert FrameSignals(fs[0]) == FrameSignals(f);
    assert Plus(NoSignals, FrameSignals(f)) == FrameSignals(f);
  }

  /** One frame is enough: its expression names a change but no rate, which the frame's own data model allows. */
  lemma RatelessChangeEscapes(settings: Settings) returns (os: seq<Frame>, b: Buffer)
    ensures BatchOf(os).Valid() && Accepts(SHOP, EmptyBuffer, BatchOf(os), b) && |os| == 1
    ensures Enumerates(os, b.observations) && BufferInv(SHOP, b) && Escapes(b, settings)
  {
    hide Series, Accepts, BufferInv, Enumerates, RunsOf, Enriched, Escapes, FrameSignals, Aoi.MapFrame, Aoi.MappedProduct,
      SignalsOf, FramesOf;
    var f := Looking("frame", 0, 0, SMILED, Expressive(RATELESS));
    os := [f];
    OneFrameSeries(f);
    b := SeriesAccepted(SHOP, os);
    LookingMaps(f);
    FirstFrame(f, "bag");
    RatelessSignals();
    SmilesCounted(AsSeen(os)[0]);
    RefusedEscapes(os, b, settings);
  }

  lemma RatelessSignals()
    ensures FrameSignals(Looking("frame", 0, 0, SMILED, Expressive(RATELESS))) == Signals(false, {"smile"}, {}, {})
  {
    assert map["smile" := 0.1].Keys == {"smile"};
    assert (set a | a in RATELESS.sustained :: a.signal) == {};
  }

  lemma SmilesCounted(f: Frame)
    requires f.expression.value.Some?
    ensures CountExpression([f]) == 1
  {
    assert [f][..0] == [];
  }

  function SignalName(i: nat): string {
    "s" + Padded(i, 2)
  }

  /** 33 sustained signals, well within a single frame's 64. */
  function Held(from: nat): DerivedExpression {
    DerivedExpression(None, None, seq(33, i requires 0 <= i < 33 => SustainedAction(SignalName(from + i), 1.0)))
  }

  function HeldFrames(): seq<Frame> {
    [Looking("a", 0, 0, SMILED, Expressive(Held(0))), Looking("b", 1, 0, SMILED, Expressive(Held(33)))]
  }

  lemma TwoFrameSeries(f: Frame, g: Frame)
    requires f.Valid() && Admissible(SHOP, f) && f.sequence == 0 && f.capturedAt == 0.0 && f.sessionOffset == 0.0
    requires g.Valid() && Admissible(SHOP, g) && g.sequence == 1 && g.capturedAt == 1.0 && g.sessionOffset == 0.0
    requires f.videoTime == g.videoTime == 0 && f.epoch <= g.epoch && f.FrameKey() != g.FrameKey()
    ensures Series(SHOP, [f, g])
  {
    hide Frame.Valid, Admissible;
  }

  lemma NamesDiffer(i: nat, j: nat)
    requires i < j < 100
    ensures SignalName(i) != SignalName(j)
  {
    if SignalName(i) == SignalName(j) {
      assert SignalName(i)[1..] == Padded(i, 2) && SignalName(j)[1..] == Padded(j, 2);
      assert Pow10(2) == 10 * (10 * Pow10(0));
      PaddedInjective(i, j, 2);
      assert false;
    }
  }

  /** Whatever holds all 66 names has more than 64 elements. */
  lemma ManyNames(names: set<string>)
    requires forall i: nat :: i < 66 ==> SignalName(i) in names
    ensures |names| > MAX_SUSTAINED
  {
    hide SignalName;
    var all := seq(66, i requires 0 <= i < 66 => SignalName(i));
    forall i, j | 0 <= i < j < 66 ensures all[i] != all[j] {
      NamesDiffer(i, j);
    }
    DistinctCount(all);
    SmallSubset(ValueSet(all), names);
  }

  lemma HeldSignals(from: nat, f: Frame)
    requires f.derived == Expressive(Held(from))
    ensures forall i: nat :: from <= i < from + 33 ==> SignalName(i) in FrameSignals(f).sustained
  {
    hide SignalName;
    forall i: nat | from <= i < from + 33 ensures SignalName(i) in FrameSignals(f).sustained {
      var a := Held(from).sustained[i - from];
      assert a in Held(from).sustained && a.signal == SignalName(i);
    }
  }

  lemma HeldRefused()
    ensures forall o :: o in HeldFrames() ==> o.Valid()
    ensures ExpressionRefused(AsSeen(HeldFrames()), "bag")
  {
    hide Aoi.MapFrame, Aoi.MappedProduct, Aoi.Enrich, FrameSignals, SignalsOf, Held;
    HeldValid();
    var os := HeldFrames();
    var fs := AsSeen(os);
    LookingMaps(os[0]);
    LookingMaps(os[1]);
    EnrichKeeps(os[0]);
    EnrichKeeps(os[1]);
    HeldSignals(0, fs[0]);
    HeldSignals(33, fs[1]);
    TwoContribute(fs);
    ManyNames(SignalsOf(fs, 2, "bag").sustained);
    FramesOfAre(fs, 2, "bag");
    assert fs[..2] == fs;
    ExpressionCounted(FramesOf(fs, 2, "bag"), fs[0]);
  }

  lemma HeldValid()
    ensures forall o :: o in HeldFrames() ==> o.Valid() && Admissible(SHOP, o)
  {
  }

  lemma TwoContribute(fs: seq<Frame>)
    requires |fs| == 2 && !Discontinuous(fs[0], fs[1])
    requires Aoi.MappedProduct(fs[0]) == Some("bag") == Aoi.MappedProduct(fs[1])
    ensures SignalsOf(fs, 2, "bag").sustained == FrameSignals(fs[0]).sustained + FrameSignals(fs[1]).sustained
  {
    hide Aoi.MappedProduct, FrameSignals, Discontinuous;
    assert SignalsOf(fs, 0, "bag") == NoSignals;
    assert SignalsOf(fs, 1, "bag") == Plus(NoSignals, FrameSignals(fs[0]));
    assert SignalsOf(fs, 2, "bag") == Plus(SignalsOf(fs, 1, "bag"), FrameSignals(fs[1]));
  }

  lemma {:induction false} ExpressionCounted(fs: seq<Frame>, f: Frame)
    requires f in fs && f.expression.value.Some?
    ensures CountExpression(fs) > 0
  {
    if fs[|fs| - 1] != f {
      assert f in fs[..|fs| - 1];
      ExpressionCounted(fs[..|fs| - 1], f);
    }
  }

  /** Two frames are enough: each sustains 33 signals, and together they exceed the 64 of a product's summary. */
  lemma SustainedSignalsEscape(settings: Settings) returns (os: seq<Frame>, b: Buffer)
    ensures BatchOf(os).Valid() && Accepts(SHOP, EmptyBuffer, BatchOf(os), b) && |os| == 2
    ensures Enumerates(os, b.observations) && BufferInv(SHOP, b) && Escapes(b, settings)
  {
    hide Series, Accepts, BufferInv, Enumerates, RunsOf, Enriched, Escapes, ExpressionRefused, Held, Frame.Valid, Admissible;
    os := HeldFrames();
    HeldValid();
    TwoFrameSeries(os[0], os[1]);
    b := SeriesAccepted(SHOP, os);
    HeldRefused();
    RefusedEscapes(os, b, settings);
  }

  // ----- Jobs that no reply can answer -----

  /** A frame without attention data. */
  function Away(id: string, sequence: nat, epoch: nat, gaze: Modality<Gaze>): Frame {
    Frame(id, sequence, sequence as real, 0.0, 0, epoch, gaze, Missing(), Missing(), Missing())
  }

  lemma AwayMaps(f: Frame)
    requires f.Valid() && f.attention == Missing()
    ensures Aoi.Enrich(f, MappingOf(f, Some(REVIEWED))) == f
  {
  }

  lemma {:induction false} NoExpressions(fs: seq<Frame>)
    requires forall f :: f in fs ==> f.expression.value.None?
    ensures CountExpression(fs) == 0
  {
    if fs != [] {
      NoExpressions(fs[..|fs| - 1]);
    }
  }

  lemma NothingExpressed(fs: seq<Frame>, p: string)
    requires forall f :: f in fs ==> f.expression.value.None?
    ensures !ExpressionRefused(fs, p)
  {
    FramesOfAre(fs, |fs|, p);
    assert fs[..|fs|] == fs;
    NoExpressions(FramesOf(fs, |fs|, p));
  }

  /** The same frame id in two epochs: only the first frame looks at the bag. */
  function TwiceNamed(): seq<Frame> {
    [Looking("frame", 0, 0, Missing(), Missing()), Away("frame", 1, 1, Missing())]
  }

  lemma TwiceSeen()
    ensures Series(SHOP, TwiceNamed()) && forall o :: o in TwiceNamed() ==> o.Valid()
    ensures var fs := AsSeen(TwiceNamed());
      && |fs| == 2 && Aoi.MappedProduct(fs[0]) == Some("bag") && OneCandidate(fs[0], "bag") && fs[0].gaze.value.Some?
      && fs[0].frameId == fs[1].frameId == "frame" && fs[1].attention.value.None? && Aoi.MappedProduct(fs[1]).None?
      && forall f :: f in fs ==> f.expression.value.None?
  {
    hide Aoi.MapFrame, Aoi.MappedProduct, Aoi.Enrich, OneCandidate;
    var os := TwiceNamed();
    TwoFrameSeries(os[0], os[1]);
    LookingMaps(os[0]);
    AwayMaps(os[1]);
    UnmappedAway(os[1]);
  }

  lemma UnmappedAway(f: Frame)
    requires f.attention == Missing()
    ensures Aoi.MappedProduct(f).None?
  {
  }

  /** Completing the session on this input dispatches, and no reply whatsoever can pass the gate. */
  ghost predicate Hopeless(b: Buffer, observations: seq<Frame>, settings: Settings, modelId: string, request: Request) {
    && Dispatches(SHOP, b, observations, settings, modelId, request)
    && forall diagnosis: string -> bool :: !SomeReplyPasses(request, diagnosis)
  }

  lemma RequestTimeline(os: seq<Frame>, b: Buffer, observations: seq<Frame>, settings: Settings, modelId: string,
                        request: Request)
    requires Series(SHOP, os) && BufferInv(SHOP, b)
    requires Enumerates(os, b.observations) && Enumerates(observations, b.observations)
    requires Dispatches(SHOP, b, observations, settings, modelId, request) && request.evidence.variant == B
    ensures (forall o :: o in os ==> o.Valid()) && request.Timeline() == AsSeen(os)
    ensures CountGaze(AsSeen(os)) > 0 ==> request.evidence.quality.gazeValid != 0.0
    ensures request.source.None?
  {
    hide Series, BufferInv, Enumerates, Dispatches, Summarized, Frame.Valid, Admissible, Ready, Enriched, WindowsOf, Quality,
      Summaries, CatalogIds, EligibleIds, Ordered;
    ShopFrames(os, b, observations);
    DispatchParts(SHOP, b, observations, settings, modelId, request);
    SummarizedParts(observations, MappingMetadata(SHOP), CatalogOrder(SHOP.products), settings.inputVariant);
    RatioOfGaze(Ordered(observations), AsSeen(os), MappingMetadata(SHOP));
  }

  /**
   The gate looks frames up by id alone. Here the store keeps both frames, the bag is eligible, the
   deterministic client answers with its frame, and the gate refuses it and every other reply.
   */
  lemma SameIdIsHopeless(allowDemo: bool, modelId: string) returns (os: seq<Frame>, b: Buffer, request: Request)
    ensures BatchOf(os).Valid() && Accepts(SHOP, EmptyBuffer, BatchOf(os), b) && Enumerates(os, b.observations)
    ensures Hopeless(b, os, Settings(B, allowDemo), modelId, request)
    ensures "bag" in EligibleProducts(request.evidence) && Recommend(request).Some?
  {
    hide Series, Accepts, BufferInv, Enumerates, Enriched, Frame.Valid, Aoi.MappedProduct, Dispatches, SomeReplyPasses,
      EligibleProducts, OneCandidate, Recommend, TwiceNamed, Resolves;
    os := TwiceNamed();
    TwiceSeen();
    b := SeriesAccepted(SHOP, os);
    var settings := Settings(B, allowDemo);
    request := TwiceDispatches(b, settings, modelId);
    FrameVariant(b, os, settings, modelId, request);
    RequestTimeline(os, b, os, settings, modelId, request);
    GazeCounted(AsSeen(os), AsSeen(os)[0]);
    OnlyTheLastCounts(request, AsSeen(os));
    Unanswerable(request);
    BagIsEligible(os, b, settings, modelId, request);
  }

  lemma TwiceDispatches(b: Buffer, settings: Settings, modelId: string) returns (request: Request)
    requires BufferInv(SHOP, b) && Enumerates(TwiceNamed(), b.observations) && settings.inputVariant == B
    ensures Dispatches(SHOP, b, TwiceNamed(), settings, modelId, request)
  {
    hide Series, BufferInv, Enumerates, RunsOf, Enriched, Frame.Valid, Admissible, Aoi.MappedProduct, Prepare, OneCandidate,
      ExpressionRefused, TwiceNamed, HitsKnown, ContextValid;
    var os := TwiceNamed();
    TwiceSeen();
    ShopFrames(os, b, os);
    var fs := AsSeen(os);
    var r := RunCovers(Evidence.TrackOf(fs), 2, 0);
    forall p ensures !ExpressionRefused(fs, p) {
      NothingExpressed(fs, p);
    }
    var accepted := Acceptance(0, "s1");
    WindowsAreDispatched(SHOP, b, os, settings, modelId, accepted);
    request := Prepare(SHOP, os, b.sourceHits, settings, modelId, accepted).request;
  }

  lemma Unanswerable(request: Request)
    requires NothingResolves(request)
    ensures forall diagnosis: string -> bool :: !SomeReplyPasses(request, diagnosis)
  {
    hide NothingResolves, SomeReplyPasses;
    forall diagnosis: string -> bool ensures !SomeReplyPasses(request, diagnosis) {
      NothingToAnswerWith(request, diagnosis);
    }
  }

  lemma FrameVariant(b: Buffer, os: seq<Frame>, settings: Settings, modelId: string, request: Request)
    requires Dispatches(SHOP, b, os, settings, modelId, request) && settings.inputVariant == B
    ensures request.evidence.variant == B
  {
    hide Dispatches, Summarized, Frame.Valid, Admissible, Ready, Enriched, WindowsOf, Quality, Summaries, CatalogIds,
      EligibleIds, Ordered;
    DispatchParts(SHOP, b, os, settings, modelId, request);
    SummarizedParts(os, MappingMetadata(SHOP), CatalogOrder(SHOP.products), settings.inputVariant);
  }

  lemma OnlyTheLastCounts(request: Request, fs: seq<Frame>)
    requires request.Timeline() == fs && |fs| == 2 && fs[0].frameId == fs[1].frameId && fs[1].attention.value.None?
    ensures forall product, id :: !Resolves(request, product, id)
  {
    forall product, id ensures !Resolves(request, product, id) {
      assert fs[..1] == [fs[0]];
    }
  }

  lemma BagIsEligible(os: seq<Frame>, b: Buffer, settings: Settings, modelId: string, request: Request)
    requires os == TwiceNamed() && BufferInv(SHOP, b) && Enumerates(os, b.observations)
    requires Dispatches(SHOP, b, os, settings, modelId, request) && request.evidence.variant == B
    ensures "bag" in EligibleProducts(request.evidence) && Recommend(request).Some?
  {
    hide BufferInv, Enumerates, Enriched, Frame.Valid, Aoi.MappedProduct, Dispatches, EligibleProducts, OneCandidate,
      Recommend, Eligible, TwiceNamed, Series;
    TwiceSeen();
    RequestTimeline(os, b, os, settings, modelId, request);
    var fs := AsSeen(os);
    EligibleFrom(fs, 0);
    EligibleInShop(os, b, settings, modelId, request);
    ShopCatalog();
    forall p | p in EligibleProducts(request.evidence) ensures p == "bag" {
      OnlyTheBag(fs, p);
    }
    ClientAnswers(request, fs);
  }

  lemma OnlyTheBag(fs: seq<Frame>, p: string)
    requires |fs| == 2 && Aoi.MappedProduct(fs[0]) == Some("bag") && Aoi.MappedProduct(fs[1]).None? && Eligible(fs, p)
    ensures p == "bag"
  {
    hide Aoi.MappedProduct;
    if p != "bag" {
      UnseenFrames(fs, 2, p);
    }
  }

  lemma EligibleInShop(os: seq<Frame>, b: Buffer, settings: Settings, modelId: string, request: Request)
    requires Series(SHOP, os) && BufferInv(SHOP, b) && Enumerates(os, b.observations)
    requires Dispatches(SHOP, b, os, settings, modelId, request)
    ensures (forall o :: o in os ==> o.Valid()) && request.products == SHOP.products
    ensures forall p :: p in EligibleProducts(request.evidence) <==>
              p in ProductIds(SHOP.products) && Eligible(AsSeen(os), p)
  {
    hide Series, BufferInv, Enumerates, Enriched, Frame.Valid, Admissible, Dispatches, EligibleProducts, Summarized, Ready,
      WindowsOf, Quality, Summaries, CatalogIds, Ordered, Eligible, ContextValid, ProductIds;
    ShopFrames(os, b, os);
    var fs := AsSeen(os);
    DispatchParts(SHOP, b, os, settings, modelId, request);
    SummarizedParts(os, MappingMetadata(SHOP), CatalogOrder(SHOP.products), settings.inputVariant);
    var ids := CatalogIds(CatalogOrder(SHOP.products), fs);
    ShopIsValid();
    CatalogFits(SHOP, fs);
    EligibleProductsAre(fs, ids, request.evidence);
  }

  /** A product that no frame maps to is not eligible. */
  lemma {:induction false} UnseenFrames(fs: seq<Frame>, n: nat, p: string)
    requires n <= |fs| && forall i :: 0 <= i < n ==> Aoi.MappedProduct(fs[i]) != Some(p)
    ensures FramesOf(fs, n, p) == []
  {
    hide Aoi.MappedProduct;
    if n > 0 {
      UnseenFrames(fs, n - 1, p);
    }
  }

  lemma ClientAnswers(request: Request, fs: seq<Frame>)
    requires request.source.None? && request.evidence.variant == B && BAG in request.products
    requires request.Timeline() == fs && fs != [] && OneCandidate(fs[0], "bag")
    requires "bag" in EligibleProducts(request.evidence)
    requires forall p :: p in EligibleProducts(request.evidence) ==> p == "bag"
    ensures Recommend(request).Some?
  {
    hide EligibleProducts, GazeSignals, SignalLess, OneCandidate, CandidateFrames, ProfileOf;
    SignalsExist(request);
    ChosenSignal(request);
    ProfileFound(request.products, "bag");
    assert fs[0] in CandidateFrames(request.Timeline(), "bag");
  }

  /** Gaze without an attention point: only the low-signal model is asked, and it has nothing to answer with. */
  lemma UnmappedGazeIsHopeless(settings: Settings) returns (os: seq<Frame>, b: Buffer, request: Request)
    ensures BatchOf(os).Valid() && Accepts(SHOP, EmptyBuffer, BatchOf(os), b) && Enumerates(os, b.observations)
    ensures Hopeless(b, os, settings, LUNA_MODEL_ID, request)
  {
    hide Series, Accepts, BufferInv, Enumerates, RunsOf, Enriched, Frame.Valid, Admissible, Aoi.MappedProduct, Dispatches,
      Prepare, SomeReplyPasses, OneCandidate, ExpressionRefused, LastFrame;
    var f := Away("frame", 0, 0, LOOKED);
    os := [f];
    AwaySeries(f);
    b := SeriesAccepted(SHOP, os);
    ShopFrames(os, b, os);
    AwayMaps(f);
    var fs := AsSeen(os);
    assert fs == [f];
    request := LunaDispatches(f, b, settings);
    RequestTimeline(os, b, os, settings, LUNA_MODEL_ID, request);
    GazeCounted(fs, f);
    NeverResolves(request, fs);
    Unanswerable(request);
  }

  lemma AwaySeries(f: Frame)
    requires f == Away("frame", 0, 0, LOOKED)
    ensures Series(SHOP, [f])
  {
    OneFrameSeries(f);
  }

  lemma NeverResolves(request: Request, fs: seq<Frame>)
    requires request.Timeline() == fs && forall f :: f in fs ==> f.attention.value.None?
    ensures forall product, id :: !Resolves(request, product, id)
  {
    hide LastFrame;
  }

  lemma LunaDispatches(f: Frame, b: Buffer, settings: Settings) returns (request: Request)
    requires f.attention.value.None? && f.expression.value.None? && f.Valid() && Snapshotted(SHOP, b, [f])
    requires FramesOfSnapshot(SHOP, [f]) == [f] == AsSeen([f])
    ensures Dispatches(SHOP, b, [f], settings, LUNA_MODEL_ID, request) && request.evidence.variant == B
  {
    hide Snapshotted, Summarized, Frame.Valid, Enriched, ExpressionRefused, RunsOf, Ordered, Quality, Summaries, EligibleIds,
      CatalogIds;
    var observations := [f];
    NothingMappedNoWindows(f);
    NothingExpressed([f], "bag");
    forall p ensures !ExpressionRefused([f], p) {
      NothingExpressed([f], p);
    }
    SummarizedTotal(SHOP, b, observations, settings.inputVariant);
    SummarizedParts(observations, MappingMetadata(SHOP), CatalogOrder(SHOP.products), settings.inputVariant);
    var accepted := Acceptance(0, "s1");
    request := Prepare(SHOP, observations, b.sourceHits, settings, LUNA_MODEL_ID, accepted).request;
  }

  lemma NothingMappedNoWindows(f: Frame)
    requires f.attention.value.None?
    ensures RunsOf(Evidence.TrackOf([f]), 1) == [] && WindowsOf([f]) == []
  {
    NoLabelsNoRuns(Evidence.TrackOf([f]), 1);
    SameCount([f]);
  }
}
