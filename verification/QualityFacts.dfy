/**
 What the data quality of a decision says about the stored frames: every ratio counts the frames it is
 named after, and the expected count is the number of sequence numbers that the session spans.
 */
module QualityFacts {
  import opened Common
  import opened Observations
  import opened SourceAoi
  import opened Ingestion
  import opened EvidenceSummary
  import opened SourceEvidence
  import opened Snapshots
  import opened Gate
  import opened Completion
  import opened Grounding
  import Aoi = AoiMetadata

  // ----- Counting frames -----

  predicate HasGaze(f: Frame) { f.gaze.value.Some? }

  predicate HasExpression(f: Frame) { f.expression.value.Some? }

  predicate HasBoth(f: Frame) { HasGaze(f) && HasExpression(f) }

  function Ambiguous(aoi: Option<Aoi.Metadata>): Frame -> bool {
    (f: Frame) => aoi.Some? && Aoi.OnTwoProducts(f, aoi.value)
  }

  /** The places of the frames that `p` selects. */
  ghost function Chosen(fs: seq<Frame>, p: Frame -> bool): set<nat> {
    set i | 0 <= i < |fs| && p(fs[i])
  }

  lemma ChosenStep(fs: seq<Frame>, p: Frame -> bool)
    requires fs != []
    ensures |Chosen(fs, p)| == |Chosen(fs[..|fs| - 1], p)| + if p(fs[|fs| - 1]) then 1 else 0
  {
    var init := fs[..|fs| - 1];
    assert Chosen(fs, p) == Chosen(init, p) + if p(fs[|init|]) then {|init|} else {};
  }

  lemma {:induction false} GazeCounted(fs: seq<Frame>)
    ensures CountGaze(fs) == |Chosen(fs, HasGaze)|
  {
    hide Chosen;
    if fs == [] {
      NoneChosen(HasGaze);
    } else {
      GazeCounted(fs[..|fs| - 1]);
      ChosenStep(fs, HasGaze);
    }
  }

  lemma {:induction false} ExpressionCounted(fs: seq<Frame>)
    ensures CountExpression(fs) == |Chosen(fs, HasExpression)|
  {
    hide Chosen;
    if fs == [] {
      NoneChosen(HasExpression);
    } else {
      ExpressionCounted(fs[..|fs| - 1]);
      ChosenStep(fs, HasExpression);
    }
  }

  lemma {:induction false} BothCounted(fs: seq<Frame>)
    ensures CountBoth(fs) == |Chosen(fs, HasBoth)|
  {
    hide Chosen;
    if fs == [] {
      NoneChosen(HasBoth);
    } else {
      BothCounted(fs[..|fs| - 1]);
      ChosenStep(fs, HasBoth);
    }
  }

  lemma {:induction false} AmbiguousCounted(fs: seq<Frame>, aoi: Option<Aoi.Metadata>)
    requires forall f :: f in fs ==> f.Valid()
    ensures CountAmbiguous(fs, aoi) == |Chosen(fs, Ambiguous(aoi))|
  {
    hide Chosen, Frame.Valid, Aoi.OnTwoProducts, Aoi.MapFrame;
    if fs == [] {
      NoneChosen(Ambiguous(aoi));
    } else {
      AmbiguousCounted(fs[..|fs| - 1], aoi);
      ChosenStep(fs, Ambiguous(aoi));
      if aoi.Some? {
        Aoi.AmbiguousMeans(fs[|fs| - 1], aoi.value);
      }
    }
  }

  lemma NoneChosen(p: Frame -> bool)
    ensures |Chosen([], p)| == 0
  {
    assert Chosen([], p) == {};
  }

  /** Enrichment leaves gaze and expression alone. */
  lemma EnrichedChosen(ordered: seq<Frame>, aoi: Option<Aoi.Metadata>)
    requires forall f :: f in ordered ==> f.Valid()
    ensures var fs := Enriched(ordered, aoi);
      && Chosen(fs, HasGaze) == Chosen(ordered, HasGaze) && Chosen(fs, HasExpression) == Chosen(ordered, HasExpression)
      && Chosen(fs, HasBoth) == Chosen(ordered, HasBoth)
  {
    hide Frame.Valid, Aoi.MapFrame;
  }

  // ----- The expected count -----

  /** The sequence numbers, by epoch, that lie between two frames of that epoch. */
  ghost function Spanned(fs: seq<Frame>): set<(nat, nat)> {
    set a, b, n | a in fs && b in fs && a.epoch == b.epoch && a.sequence <= n <= b.sequence :: (a.epoch, n)
  }

  ghost function Line(epoch: nat, low: nat, high: nat): set<(nat, nat)> {
    set n | low <= n <= high :: (epoch, n)
  }

  lemma {:induction false} LineSize(epoch: nat, low: nat, high: nat)
    requires low <= high
    ensures |Line(epoch, low, high)| == high - low + 1
    decreases high - low
  {
    if low == high {
      assert Line(epoch, low, high) == {(epoch, low)};
    } else {
      LineSize(epoch, low, high - 1);
      assert Line(epoch, low, high) == Line(epoch, low, high - 1) + {(epoch, high)};
    }
  }

  lemma {:induction false} SequencesAre(fs: seq<Frame>, epoch: nat)
    ensures forall n :: n in Sequences(fs, epoch) <==> exists f :: f in fs && f.epoch == epoch && f.sequence == n
  {
    if fs != [] {
      var init, f := fs[..|fs| - 1], fs[|fs| - 1];
      SequencesAre(init, epoch);
      assert fs == init + [f];
    }
  }

  ghost function SpannedIn(fs: seq<Frame>, epoch: nat): set<(nat, nat)> {
    set x | x in Spanned(fs) && x.0 == epoch
  }

  lemma EpochSpanned(fs: seq<Frame>, epoch: nat)
    requires epoch in Epochs(fs)
    ensures |SpannedIn(fs, epoch)| == Span(fs, epoch)
  {
    var s := Sequences(fs, epoch);
    SequencesAre(fs, epoch);
    var f :| f in fs && f.epoch == epoch;
    assert f.sequence in s;
    var low, high := MinOf(s), MaxOf(s);
    LineSize(epoch, low, high);
    forall g | g in fs && g.epoch == epoch ensures low <= g.sequence <= high {
      assert g.sequence in s;
    }
    EpochLine(fs, epoch, low, high);
  }

  lemma EpochLine(fs: seq<Frame>, epoch: nat, low: nat, high: nat)
    requires exists f :: f in fs && f.epoch == epoch && f.sequence == low
    requires exists f :: f in fs && f.epoch == epoch && f.sequence == high
    requires forall f :: f in fs && f.epoch == epoch ==> low <= f.sequence <= high
    ensures SpannedIn(fs, epoch) == Line(epoch, low, high)
  {
    hide Epochs;
    forall n | low <= n <= high ensures (epoch, n) in Spanned(fs) {
      var a :| a in fs && a.epoch == epoch && a.sequence == low;
      var b :| b in fs && b.epoch == epoch && b.sequence == high;
    }
  }

  ghost function SpannedAmong(fs: seq<Frame>, epochs: seq<nat>): set<(nat, nat)> {
    set x | x in Spanned(fs) && x.0 in epochs
  }

  lemma {:induction false} SpansAdd(fs: seq<Frame>, epochs: seq<nat>)
    requires forall e :: e in epochs ==> e in Epochs(fs)
    requires forall i, j :: 0 <= i < j < |epochs| ==> epochs[i] != epochs[j]
    ensures |SpannedAmong(fs, epochs)| == SumSpans(fs, epochs)
  {
    hide Spanned, Epochs, Span;
    if epochs == [] {
      assert SpannedAmong(fs, epochs) == {};
    } else {
      SpansAdd(fs, epochs[1..]);
      EpochSpanned(fs, epochs[0]);
      assert SpannedAmong(fs, epochs) == SpannedIn(fs, epochs[0]) + SpannedAmong(fs, epochs[1..]);
    }
  }

  /** The expected count is the number of sequence numbers that the frames span, epoch by epoch. */
  lemma ExpectedIsSpanned(fs: seq<Frame>)
    ensures ExpectedCount(fs) == |Spanned(fs)|
  {
    SpansAdd(fs, Epochs(fs));
    assert SpannedAmong(fs, Epochs(fs)) == Spanned(fs);
  }

  lemma SpannedWithin(fs: seq<Frame>, gs: seq<Frame>)
    requires |fs| == |gs|
    requires forall i :: 0 <= i < |fs| ==> fs[i].epoch == gs[i].epoch && fs[i].sequence == gs[i].sequence
    ensures Spanned(fs) <= Spanned(gs)
  {
    forall x | x in Spanned(fs) ensures x in Spanned(gs) {
      var a, b :| a in fs && b in fs && a.epoch == b.epoch && a.sequence <= x.1 <= b.sequence && x.0 == a.epoch;
      var i :| 0 <= i < |fs| && fs[i] == a;
      var j :| 0 <= j < |fs| && fs[j] == b;
      assert gs[i] in gs && gs[j] in gs;
    }
  }

  lemma EnrichedSpanned(ordered: seq<Frame>, aoi: Option<Aoi.Metadata>)
    requires forall f :: f in ordered ==> f.Valid()
    ensures Spanned(Enriched(ordered, aoi)) == Spanned(ordered)
  {
    hide Frame.Valid, Aoi.MapFrame, Spanned;
    SpannedWithin(ordered, Enriched(ordered, aoi));
    SpannedWithin(Enriched(ordered, aoi), ordered);
  }

  // ----- Places and keys -----

  /** The keys of the stored frames that `p` selects. */
  ghost function Keyed(m: map<Key, Frame>, p: Frame -> bool): set<Key> {
    set k | k in m && p(m[k])
  }

  /** The sequence numbers, by epoch, that lie between two stored frames of that epoch. */
  ghost function SpannedBy(m: map<Key, Frame>): set<(nat, nat)> {
    set j, k, n | j in m && k in m && m[j].epoch == m[k].epoch && m[j].sequence <= n <= m[k].sequence :: (m[j].epoch, n)
  }

  /** `fs` holds each stored frame once, under whatever order. */
  ghost predicate Lists(fs: seq<Frame>, m: map<Key, Frame>) {
    && (forall i, j :: 0 <= i < j < |fs| ==> fs[i] != fs[j])
    && (forall f :: f in fs ==> f.FrameKey() in m && m[f.FrameKey()] == f)
    && (forall k :: k in m ==> m[k].FrameKey() == k && m[k] in fs)
  }

  lemma OrderedLists(observations: seq<Frame>, m: map<Key, Frame>)
    requires Enumerates(observations, m)
    ensures Lists(Ordered(observations), m)
  {
    hide Ordered;
    OrderedMembers(observations);
    OrderedDistinct(observations, m);
  }

  ghost function KeysAt(fs: seq<Frame>, places: set<nat>): set<Key>
    requires forall i :: i in places ==> i < |fs|
  {
    set i | i in places :: fs[i].FrameKey()
  }

  lemma {:induction false} KeysAtSize(fs: seq<Frame>, places: set<nat>)
    requires forall i :: i in places ==> i < |fs|
    requires forall i, j :: 0 <= i < j < |fs| ==> fs[i].FrameKey() != fs[j].FrameKey()
    ensures |KeysAt(fs, places)| == |places|
    decreases |places|
  {
    if places == {} {
      assert KeysAt(fs, places) == {};
    } else {
      var i :| i in places;
      KeysAtSize(fs, places - {i});
      assert KeysAt(fs, places) == KeysAt(fs, places - {i}) + {fs[i].FrameKey()};
    }
  }

  /** Counting places in the list is counting stored frames. */
  lemma ChosenAreKeyed(fs: seq<Frame>, m: map<Key, Frame>, p: Frame -> bool)
    requires Lists(fs, m)
    ensures |Chosen(fs, p)| == |Keyed(m, p)|
  {
    forall i, j | 0 <= i < j < |fs| ensures fs[i].FrameKey() != fs[j].FrameKey() {
      assert fs[i] in fs && fs[j] in fs;
    }
    KeysAtSize(fs, Chosen(fs, p));
    forall k | k in Keyed(m, p) ensures k in KeysAt(fs, Chosen(fs, p)) {
      var i :| 0 <= i < |fs| && fs[i] == m[k];
      assert i in Chosen(fs, p);
    }
    forall k | k in KeysAt(fs, Chosen(fs, p)) ensures k in Keyed(m, p) {
      var i :| i in Chosen(fs, p) && fs[i].FrameKey() == k;
      assert fs[i] in fs;
    }
    assert Keyed(m, p) == KeysAt(fs, Chosen(fs, p));
  }

  lemma SpannedAreKeyed(fs: seq<Frame>, m: map<Key, Frame>)
    requires Lists(fs, m)
    ensures Spanned(fs) == SpannedBy(m)
  {
    forall x | x in Spanned(fs) ensures x in SpannedBy(m) {
      var a, b :| a in fs && b in fs && a.epoch == b.epoch && a.sequence <= x.1 <= b.sequence && x.0 == a.epoch;
      assert m[a.FrameKey()] == a && m[b.FrameKey()] == b;
    }
    forall x | x in SpannedBy(m) ensures x in Spanned(fs) {
      var j, k :| j in m && k in m && m[j].epoch == m[k].epoch && m[j].sequence <= x.1 <= m[k].sequence && x.0 == m[j].epoch;
      assert m[j] in fs && m[k] in fs;
    }
  }

  // ----- Source hits -----

  function SingleHit(cache: map<Key, seq<Hit>>): Frame -> bool {
    (f: Frame) => |HitsFor(cache, f)| == 1
  }

  function ManyHits(cache: map<Key, seq<Hit>>): Frame -> bool {
    (f: Frame) => |HitsFor(cache, f)| > 1
  }

  lemma {:induction false} SinglesCounted(cache: map<Key, seq<Hit>>, fs: seq<Frame>, n: nat)
    requires n <= |fs|
    ensures SingleCount(cache, fs, n) == |Chosen(fs[..n], SingleHit(cache))|
    ensures AmbiguousCount(cache, fs, n) == |Chosen(fs[..n], ManyHits(cache))|
  {
    hide Chosen, HitsFor;
    if n == 0 {
      NoneChosen(SingleHit(cache));
      NoneChosen(ManyHits(cache));
    } else {
      SinglesCounted(cache, fs, n - 1);
      assert fs[..n][..n - 1] == fs[..n - 1];
      ChosenStep(fs[..n], SingleHit(cache));
      ChosenStep(fs[..n], ManyHits(cache));
    }
  }

  /** The two counts that the source path reports: without a single hit it reports no evidence, hence none. */
  lemma VisualCounts(ctx: SessionContext, observations: seq<Frame>, hits: map<Key, seq<Hit>>)
    requires ctx.source.Some? && HitsKnown(hits, ctx.source.value.sources)
    requires VisualOf(ctx, observations, hits).Ok?
    ensures var visual, fs := VisualOf(ctx, observations, hits).value, Ordered(observations);
      && (visual.Some? <==> Chosen(fs, SingleHit(hits)) != {})
      && (visual.Some? ==> visual.value.totalHits == |Chosen(fs, SingleHit(hits))|
                           && visual.value.ambiguous == |Chosen(fs, ManyHits(hits))|)
  {
    hide HitsKnown, SourcesHit, FeatureScores, Weights, AmbiguousCount, SingleCount, SingleSource, HitsFor, Chosen;
    var fs, sources := Ordered(observations), ctx.source.value.sources;
    SinglesCounted(hits, fs, |fs|);
    assert fs[..|fs|] == fs;
    TotalIsSingleCount(hits, fs, sources);
    EvidenceParts(SummariesFor(hits, fs, sources, HitIds(hits, fs, sources)), AmbiguousCount(hits, fs, |fs|));
    SourcesAppear(hits, fs);
    SomethingChosen(fs, SingleHit(hits));
  }

  lemma SomethingChosen(fs: seq<Frame>, p: Frame -> bool)
    ensures Chosen(fs, p) != {} <==> exists i :: 0 <= i < |fs| && p(fs[i])
  {
    if i :| 0 <= i < |fs| && p(fs[i]) {
      assert i in Chosen(fs, p);
    }
  }

  lemma SourcesAppear(hits: map<Key, seq<Hit>>, fs: seq<Frame>)
    ensures SourcesHit(hits, fs, |fs|) != [] <==> exists i :: 0 <= i < |fs| && SingleHit(hits)(fs[i])
  {
    SourcesAppearUpTo(hits, fs, |fs|);
  }

  lemma {:induction false} SourcesAppearUpTo(hits: map<Key, seq<Hit>>, fs: seq<Frame>, n: nat)
    requires n <= |fs|
    ensures SourcesHit(hits, fs, n) != [] <==> exists i :: 0 <= i < n && SingleHit(hits)(fs[i])
  {
    hide HitsFor;
    if n > 0 {
      SourcesAppearUpTo(hits, fs, n - 1);
    }
  }

  // ----- What the quality of a prepared outcome says -----

  function QualityOf(p: Prepared): DataQuality
    requires !p.Refused?
  {
    match p
    case Immediate(d) => d.quality
    case Dispatch(request) => request.evidence.quality
  }

  /** How many frames a ratio of `q` stands for: ratios are taken over the expected count, or over 1. */
  function FramesIn(q: DataQuality, ratio: real): real {
    ratio * (if q.expected == 0 then 1 else q.expected) as real
  }

  /** The expected count and the four ratios, as counts of stored frames. */
  ghost predicate Reports(q: DataQuality, m: map<Key, Frame>, matched: set<Key>, ambiguous: set<Key>) {
    && q.expected == |SpannedBy(m)| >= |m|
    && FramesIn(q, q.gazeValid) == |Keyed(m, HasGaze)| as real
    && FramesIn(q, q.expressionValid) == |Keyed(m, HasExpression)| as real
    && FramesIn(q, q.matched) == |matched| as real
    && FramesIn(q, q.ambiguous) == |ambiguous| as real
  }

  lemma RatioStands(q: DataQuality, n: nat)
    ensures FramesIn(q, Ratio(n, if q.expected == 0 then 1 else q.expected)) == n as real
  {
  }

  lemma CappedRatio(n: nat, d: nat)
    requires d > 0 && n <= d
    ensures RealMin(1.0, Ratio(n, d)) == Ratio(n, d)
  {
    RatioBounds(n, d);
  }

  /** The quality of the evidence, over the frames in analysis order. */
  lemma EvidenceQuality(ordered: seq<Frame>, aoi: Option<Aoi.Metadata>)
    requires (forall f :: f in ordered ==> f.Valid()) && DistinctSequences(ordered)
    ensures var q := Quality(ordered, Enriched(ordered, aoi), aoi);
      && q.expected == |Spanned(ordered)| >= |ordered|
      && FramesIn(q, q.gazeValid) == |Chosen(ordered, HasGaze)| as real
      && FramesIn(q, q.expressionValid) == |Chosen(ordered, HasExpression)| as real
      && FramesIn(q, q.matched) == |Chosen(ordered, HasBoth)| as real
      && FramesIn(q, q.ambiguous) == |Chosen(ordered, Ambiguous(aoi))| as real
  {
    hide Frame.Valid, Chosen, Spanned, CountGaze, CountExpression, CountBoth, CountAmbiguous, ExpectedCount, Ratio, Enriched,
      DistinctSequences, FramesIn;
    var fs := Enriched(ordered, aoi);
    EnrichedChosen(ordered, aoi);
    EnrichedSpanned(ordered, aoi);
    EnrichedDistinct(ordered, aoi);
    ExpectedCoversObserved(fs);
    ExpectedIsSpanned(fs);
    GazeCounted(fs);
    ExpressionCounted(fs);
    BothCounted(fs);
    AmbiguousCounted(ordered, aoi);
    var q := Quality(ordered, fs, aoi);
    RatioStands(q, CountGaze(fs));
    RatioStands(q, CountExpression(fs));
    RatioStands(q, CountBoth(fs));
    RatioStands(q, CountAmbiguous(ordered, aoi));
  }

  lemma EnrichedDistinct(ordered: seq<Frame>, aoi: Option<Aoi.Metadata>)
    requires (forall f :: f in ordered ==> f.Valid()) && DistinctSequences(ordered)
    ensures DistinctSequences(Enriched(ordered, aoi))
  {
    hide Frame.Valid, Aoi.MapFrame;
  }

  /** On the source path two ratios are replaced; the cap at 1 never bites. */
  lemma SourceQualityCounts(q: DataQuality, visual: Option<VisualEvidence>)
    requires visual.Some? ==> visual.value.totalHits <= q.expected && visual.value.ambiguous <= q.expected
    ensures var s := SourceQuality(q, visual);
      && s.expected == q.expected && s.gazeValid == q.gazeValid && s.expressionValid == q.expressionValid
      && FramesIn(s, s.matched) == (if visual.Some? then visual.value.totalHits else 0) as real
      && FramesIn(s, s.ambiguous) == (if visual.Some? then visual.value.ambiguous else 0) as real
      && (forall ratio :: FramesIn(s, ratio) == FramesIn(q, ratio))
  {
    hide Ratio, RealMin;
    var expected := if q.expected == 0 then 1 else q.expected;
    var hits := if visual.Some? then visual.value.totalHits else 0;
    var ambiguous := if visual.Some? then visual.value.ambiguous else 0;
    CappedRatio(hits, expected);
    CappedRatio(ambiguous, expected);
    var s := SourceQuality(q, visual);
    SameFrames(q, s);
    hide FramesIn;
    RatioStands(s, hits);
    RatioStands(s, ambiguous);
  }

  lemma SameFrames(q: DataQuality, s: DataQuality)
    requires q.expected == s.expected
    ensures forall ratio :: FramesIn(s, ratio) == FramesIn(q, ratio)
  {
  }

  lemma DemoQuality(ctx: SessionContext, settings: Settings, modelId: string, e: EvidenceV2, accepted: Acceptance)
    ensures DemoDecision(ctx, settings, modelId, e, accepted).Some? ==>
              DemoDecision(ctx, settings, modelId, e, accepted).value.quality == e.quality
  {
  }

  lemma FinishQuality(ctx: SessionContext, settings: Settings, modelId: string, accepted: Acceptance, summarized: Snapshot,
                      visual: Option<VisualEvidence>)
    ensures var p, q := Finish(ctx, settings, modelId, accepted, summarized, visual), summarized.evidence.quality;
      !p.Refused? && QualityOf(p) == if ctx.source.None? then q else SourceQuality(q, visual)
  {
    hide Ready, SourceQuality, DemoDecision;
    var e := if ctx.source.None? then summarized.evidence
             else summarized.evidence.(quality := SourceQuality(summarized.evidence.quality, visual));
    DemoQuality(ctx, settings, modelId, e, accepted);
  }

  lemma ChosenBound(fs: seq<Frame>, p: Frame -> bool)
    ensures |Chosen(fs, p)| <= |fs|
  {
    Pigeonhole(Chosen(fs, p), 0, |fs| - 1);
  }

  /** The frames of a snapshot, in analysis order, as the stored frames. */
  lemma SnapshotCounts(ctx: SessionContext, b: Buffer, observations: seq<Frame>, aoi: Option<Aoi.Metadata>)
    requires Snapshotted(ctx, b, observations)
    ensures (forall f :: f in Ordered(observations) ==> f.Valid()) && |Ordered(observations)| <= MAX_TIMELINE
    ensures var m := b.observations; var ordered := Ordered(observations);
      var q := Quality(ordered, Enriched(ordered, aoi), aoi);
      Reports(q, m, Keyed(m, HasBoth), Keyed(m, Ambiguous(aoi))) && q.expected >= |ordered|
  {
    hide Frame.Valid, Admissible, HitsKnown, BufferInv, ContextValid, Quality, Enriched, Keyed, Chosen, Spanned, SpannedBy,
      Lists, Ordered, FramesIn, Enumerates, DistinctSequences;
    var ordered := Ordered(observations);
    OrderedFacts(ctx, b, observations);
    OrderedLists(observations, b.observations);
    OrderedMembers(observations);
    EnumerationSize(observations, b.observations);
    EvidenceQuality(ordered, aoi);
    SpannedAreKeyed(ordered, b.observations);
    ChosenAreKeyed(ordered, b.observations, HasGaze);
    ChosenAreKeyed(ordered, b.observations, HasExpression);
    ChosenAreKeyed(ordered, b.observations, HasBoth);
    ChosenAreKeyed(ordered, b.observations, Ambiguous(aoi));
  }

  lemma SourceReports(ctx: SessionContext, b: Buffer, observations: seq<Frame>, q: DataQuality)
    requires Snapshotted(ctx, b, observations) && ctx.source.Some?
    requires VisualOf(ctx, observations, b.sourceHits).Ok?
    requires Reports(q, b.observations, Keyed(b.observations, HasBoth), Keyed(b.observations, Ambiguous(None)))
    requires q.expected >= |Ordered(observations)|
    ensures var single, many := Keyed(b.observations, SingleHit(b.sourceHits)), Keyed(b.observations, ManyHits(b.sourceHits));
      Reports(SourceQuality(q, VisualOf(ctx, observations, b.sourceHits).value), b.observations, single,
              if single == {} then {} else many)
  {
    hide Frame.Valid, Admissible, HitsKnown, BufferInv, ContextValid, Keyed, Chosen, SpannedBy, Ordered, FramesIn, Lists,
      VisualOf, SourceQuality, Enumerates;
    var ordered := Ordered(observations);
    OrderedLists(observations, b.observations);
    ChosenAreKeyed(ordered, b.observations, SingleHit(b.sourceHits));
    ChosenAreKeyed(ordered, b.observations, ManyHits(b.sourceHits));
    ChosenBound(ordered, SingleHit(b.sourceHits));
    ChosenBound(ordered, ManyHits(b.sourceHits));
    VisualCounts(ctx, observations, b.sourceHits);
    EmptyMeansNone(Chosen(ordered, SingleHit(b.sourceHits)), Keyed(b.observations, SingleHit(b.sourceHits)));
    SourceQualityCounts(q, VisualOf(ctx, observations, b.sourceHits).value);
  }

  lemma EmptyMeansNone(a: set<nat>, b: set<Key>)
    requires |a| == |b|
    ensures a == {} <==> b == {}
  {
  }

  /** The keys that the two replaceable ratios count: by product on the legacy path, by source AOI on the other. */
  ghost function MatchedKeys(ctx: SessionContext, b: Buffer): set<Key> {
    Keyed(b.observations, if ctx.source.None? then HasBoth else SingleHit(b.sourceHits))
  }

  ghost function AmbiguousKeys(ctx: SessionContext, b: Buffer): set<Key> {
    if ctx.source.None? then Keyed(b.observations, Ambiguous(ctx.aoi))
    else if Keyed(b.observations, SingleHit(b.sourceHits)) == {} then {}
    else Keyed(b.observations, ManyHits(b.sourceHits))
  }

  /**
   Whatever completion prepares, its data quality counts the stored frames: the expected count is the number
   of sequence numbers they span, and times it the ratios are the numbers of frames with gaze, with an
   expression, with both (or with one source hit), and on two products (or with several source hits; on the
   source path these are left out when no frame has a single hit).
   */
  lemma PreparedQuality(ctx: SessionContext, b: Buffer, observations: seq<Frame>, settings: Settings, modelId: string,
                        accepted: Acceptance)
    requires Snapshotted(ctx, b, observations)
    ensures var p := Prepare(ctx, observations, b.sourceHits, settings, modelId, accepted);
      !p.Refused? ==> Reports(QualityOf(p), b.observations, MatchedKeys(ctx, b), AmbiguousKeys(ctx, b))
  {
    hide Frame.Valid, Admissible, HitsKnown, BufferInv, ContextValid, Quality, Enriched, Keyed, Spanned, SpannedBy, Ordered,
      FramesIn, Reports, Summarized, Built, Finish, SourceQuality, Enumerates;
    if observations == [] {
      KeysAreStored(ctx, b);
      NothingReported(b.observations, MatchedKeys(ctx, b), AmbiguousKeys(ctx, b), observations);
    } else {
      var summarized := Summarized(observations, MappingMetadata(ctx), CatalogOrder(ctx.products), settings.inputVariant);
      var visual := VisualOf(ctx, observations, b.sourceHits);
      if summarized.Ok? && visual.Ok? {
        SummarizedParts(observations, MappingMetadata(ctx), CatalogOrder(ctx.products), settings.inputVariant);
        SnapshotCounts(ctx, b, observations, MappingMetadata(ctx));
        FinishQuality(ctx, settings, modelId, accepted, summarized.value, visual.value);
        if ctx.source.Some? {
          SourceReports(ctx, b, observations, summarized.value.evidence.quality);
        }
      }
    }
  }

  lemma NothingReported(m: map<Key, Frame>, matched: set<Key>, ambiguous: set<Key>, observations: seq<Frame>)
    requires Enumerates(observations, m) && observations == [] && matched <= m.Keys && ambiguous <= m.Keys
    ensures Reports(NoQuality, m, matched, ambiguous)
  {
    assert m == map[];
    assert SpannedBy(m) == {} && Keyed(m, HasGaze) == {} && Keyed(m, HasExpression) == {};
  }

  lemma KeysAreStored(ctx: SessionContext, b: Buffer)
    ensures MatchedKeys(ctx, b) <= b.observations.Keys && AmbiguousKeys(ctx, b) <= b.observations.Keys
  {
  }

  lemma MoreFrames(q: DataQuality, a: real, b: real)
    ensures FramesIn(q, a) <= FramesIn(q, b) <==> a <= b
  {
  }

  lemma AllFrames(q: DataQuality, a: real, b: real, c: real)
    requires FramesIn(q, a) + FramesIn(q, b) - FramesIn(q, c) <= q.expected as real
    ensures a + b - c <= 1.0
  {
    var d := (if q.expected == 0 then 1 else q.expected) as real;
    assert (a + b - c) * d == a * d + b * d - c * d;
  }

  /**
   Legacy quality ratios respect inclusion and exclusion: a matched frame has gaze and has an expression, and the
   frames with either are not more than those expected.
   */
  lemma QualityLaws(q: DataQuality, m: map<Key, Frame>, ambiguous: set<Key>)
    requires Reports(q, m, Keyed(m, HasBoth), ambiguous)
    ensures q.matched <= q.gazeValid && q.matched <= q.expressionValid
    ensures q.gazeValid + q.expressionValid - q.matched <= 1.0
    ensures ambiguous <= Keyed(m, HasGaze) ==> q.ambiguous <= q.gazeValid
  {
    hide FramesIn, SpannedBy;
    var gaze, expression, both := Keyed(m, HasGaze), Keyed(m, HasExpression), Keyed(m, HasBoth);
    assert both == gaze * expression;
    Smaller(both, gaze);
    Smaller(both, expression);
    Smaller(gaze + expression, m.Keys);
    if ambiguous <= gaze {
      Smaller(ambiguous, gaze);
    }
    hide Keyed;
    MoreFrames(q, q.matched, q.gazeValid);
    MoreFrames(q, q.matched, q.expressionValid);
    MoreFrames(q, q.ambiguous, q.gazeValid);
    AllFrames(q, q.gazeValid, q.expressionValid, q.matched);
  }

  lemma Smaller<T>(a: set<T>, b: set<T>)
    requires a <= b
    ensures |a| <= |b|
  {
    assert b == a + (b - a);
  }
}
