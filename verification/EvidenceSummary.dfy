/**
 The evidence snapshot built from the loop's totals (`v2_evidence.summarize_observations`), and the
 validators of `v2_models.py` that it has to satisfy.
 */
module EvidenceSummary {
  import opened Common
  import opened Observations
  import opened RunDecomposition
  import opened Evidence
  import opened Sorting
  import Aoi = AoiMetadata

  const MAX_TIMELINE := 512
  const MAX_CATALOG := 10
  const MAX_WINDOWS := 128

  datatype Variant = A | B | C

  datatype DataQuality = DataQuality(expected: nat, gazeValid: real, expressionValid: real, matched: real,
                                     ambiguous: real)
  {
    predicate Valid() {
      0.0 <= gazeValid <= 1.0 && 0.0 <= expressionValid <= 1.0 && 0.0 <= matched <= 1.0 && 0.0 <= ambiguous <= 1.0
    }
  }

  datatype GazeSummary = GazeSummary(validCount: nat, attentionMs: real, attentionRatio: real,
                                     returnCandidates: Option<nat>)
  {
    predicate Valid() {
      attentionMs >= 0.0 && 0.0 <= attentionRatio <= 1.0
    }
  }

  /** The signals whose changes and rates are averaged, and those that were sustained. */
  datatype ExpressionSummary = ExpressionSummary(matchedCount: nat, coverage: real, changes: Option<set<string>>,
                                                 rates: Option<set<string>>, sustained: set<string>)
  {
    /** `unavailable_changes_have_reason` and the bounds: a map that is present is not empty. */
    predicate Valid() {
      && 0.0 <= coverage <= 1.0
      && (changes.Some? ==> changes.value != {}) && (rates.Some? ==> rates.value != {})
      && (changes.Some? <==> rates.Some?) && |sustained| <= MAX_SUSTAINED
    }
  }

  datatype ProductSummary = ProductSummary(productId: string, exposureMs: real, components: set<string>,
                                           visualTags: set<string>, gaze: Option<GazeSummary>,
                                           expression: Option<ExpressionSummary>)
  {
    predicate Valid() {
      && exposureMs >= 0.0 && (gaze.Some? ==> gaze.value.Valid())
      && (expression.Some? ==> expression.value.Valid())
    }
  }

  datatype Window = Window(windowId: string, productId: string, startOffset: real, endOffset: real, videoStart: nat,
                           videoEnd: nat, epoch: nat, components: set<string>, visualTags: set<string>,
                           codes: set<EvidenceCode>)
  {
    /** `ranges_are_forward` */
    predicate Valid() {
      startOffset <= endOffset && videoStart <= videoEnd
    }
  }

  datatype EvidenceV2 = EvidenceV2(variant: Variant, quality: DataQuality, summary: seq<ProductSummary>,
                                   windows: Option<seq<Window>>, timeline: Option<seq<Frame>>)
  {
    /** `variant_has_expected_payload` and the length bounds */
    predicate Valid() {
      && 1 <= |summary| <= MAX_CATALOG && (forall s :: s in summary ==> s.Valid())
      && (windows.Some? <==> variant != B) && (timeline.Some? <==> variant != C)
      && (windows.Some? ==> 1 <= |windows.value| <= MAX_WINDOWS && forall w :: w in windows.value ==> w.Valid())
      && (timeline.Some? ==> 1 <= |timeline.value| <= MAX_TIMELINE)
    }
  }

  datatype Snapshot = Snapshot(evidence: EvidenceV2, eligible: set<string>)

  datatype EvidenceError =
    | NoObservations
    | TimelineTooLong
    | NoCatalogProducts
    | TooManyCatalogProducts
    | InvalidSummary
    | WindowBackwards
    | TooManyWindows

  // ----- Window ids -----

  function Digit(n: nat): char
    requires n < 10
  {
    "0123456789"[n]
  }

  function Pow10(k: nat): (p: nat)
    ensures p >= 1
  {
    if k == 0 then 1 else 10 * Pow10(k - 1)
  }

  /** The last `k` decimal digits of `n`, zero-padded. */
  function Padded(n: nat, k: nat): (s: string)
    ensures |s| == k
  {
    if k == 0 then "" else Padded(n / 10, k - 1) + [Digit(n % 10)]
  }

  /** `f"window-{n:04d}"`, for the numbers a 512-frame timeline can need */
  function WindowId(n: nat): string
    requires n < Pow10(4)
  {
    "window-" + Padded(n, 4)
  }

  lemma DigitInjective(a: nat, b: nat)
    requires a < 10 && b < 10 && Digit(a) == Digit(b)
    ensures a == b
  {
  }

  lemma {:induction false} PaddedInjective(m: nat, n: nat, k: nat)
    requires m < Pow10(k) && n < Pow10(k) && Padded(m, k) == Padded(n, k)
    ensures m == n
  {
    if k > 0 {
      var a, b := Padded(m, k), Padded(n, k);
      assert a[..k - 1] == Padded(m / 10, k - 1) && b[..k - 1] == Padded(n / 10, k - 1);
      assert a[k - 1] == Digit(m % 10) && b[k - 1] == Digit(n % 10);
      DigitInjective(m % 10, n % 10);
      PaddedInjective(m / 10, n / 10, k - 1);
    }
  }

  lemma WindowIdInjective(m: nat, n: nat)
    requires m < Pow10(4) && n < Pow10(4) && WindowId(m) == WindowId(n)
    ensures m == n
  {
    assert WindowId(m)[7..] == Padded(m, 4) && WindowId(n)[7..] == Padded(n, 4);
    PaddedInjective(m, n, 4);
  }

  // ----- Frames and mappings -----

  function MappingOf(frame: Frame, aoi: Option<Aoi.Metadata>): Aoi.Mapping
    requires frame.Valid()
  {
    if aoi.Some? then Aoi.MapFrame(frame, aoi.value) else Aoi.Unmatched(Aoi.MetadataUnapproved)
  }

  /** The ordered frames, enriched with what approved AOIs say about them. */
  function Enriched(ordered: seq<Frame>, aoi: Option<Aoi.Metadata>): (fs: seq<Frame>)
    requires forall f :: f in ordered ==> f.Valid()
    ensures |fs| == |ordered|
    ensures forall i :: 0 <= i < |fs| ==> fs[i] == Aoi.Enrich(ordered[i], MappingOf(ordered[i], aoi))
  {
    seq(|ordered|, i requires 0 <= i < |ordered| => Aoi.Enrich(ordered[i], MappingOf(ordered[i], aoi)))
  }

  // ----- Data quality -----

  function CountGaze(fs: seq<Frame>): (n: nat)
    ensures n <= |fs|
  {
    if fs == [] then 0 else CountGaze(fs[..|fs| - 1]) + if fs[|fs| - 1].gaze.value.Some? then 1 else 0
  }

  function CountExpression(fs: seq<Frame>): (n: nat)
    ensures n <= |fs|
  {
    if fs == [] then 0 else CountExpression(fs[..|fs| - 1]) + if fs[|fs| - 1].expression.value.Some? then 1 else 0
  }

  function CountBoth(fs: seq<Frame>): (n: nat)
    ensures n <= |fs|
  {
    if fs == [] then 0
    else
      var f := fs[|fs| - 1];
      CountBoth(fs[..|fs| - 1]) + if f.gaze.value.Some? && f.expression.value.Some? then 1 else 0
  }

  function CountAmbiguous(ordered: seq<Frame>, aoi: Option<Aoi.Metadata>): (n: nat)
    requires forall f :: f in ordered ==> f.Valid()
    ensures n <= |ordered|
  {
    if ordered == [] then 0
    else
      var f := ordered[|ordered| - 1];
      CountAmbiguous(ordered[..|ordered| - 1], aoi) + if MappingOf(f, aoi).status.AmbiguousProduct? then 1 else 0
  }

  /** The dictionary's keys, in order of first appearance. */
  function Epochs(fs: seq<Frame>): (es: seq<nat>)
    ensures forall e :: e in es <==> exists f :: f in fs && f.epoch == e
    ensures forall i, j :: 0 <= i < j < |es| ==> es[i] != es[j]
  {
    if fs == [] then []
    else
      var init, e := Epochs(fs[..|fs| - 1]), fs[|fs| - 1].epoch;
      assert fs == fs[..|fs| - 1] + [fs[|fs| - 1]];
      if e in init then init else init + [e]
  }

  /** `epoch_sequences[epoch]` */
  function Sequences(fs: seq<Frame>, epoch: nat): seq<nat> {
    if fs == [] then []
    else
      var f := fs[|fs| - 1];
      Sequences(fs[..|fs| - 1], epoch) + if f.epoch == epoch then [f.sequence] else []
  }

  function MinOf(s: seq<nat>): (m: nat)
    requires s != []
    ensures m in s && forall n :: n in s ==> m <= n
  {
    if |s| == 1 then s[0]
    else
      assert forall n :: n in s ==> n == s[0] || n in s[1..];
      var rest := MinOf(s[1..]);
      if s[0] < rest then s[0] else rest
  }

  function MaxOf(s: seq<nat>): (m: nat)
    requires s != []
    ensures m in s && forall n :: n in s ==> n <= m
  {
    if |s| == 1 then s[0]
    else
      assert forall n :: n in s ==> n == s[0] || n in s[1..];
      var rest := MaxOf(s[1..]);
      if s[0] > rest then s[0] else rest
  }

  /** `max(values) - min(values) + 1` */
  function Span(fs: seq<Frame>, epoch: nat): nat {
    var s := Sequences(fs, epoch);
    if s == [] then 0 else MaxOf(s) - MinOf(s) + 1
  }

  function SumSpans(fs: seq<Frame>, epochs: seq<nat>): nat {
    if epochs == [] then 0 else Span(fs, epochs[0]) + SumSpans(fs, epochs[1..])
  }

  function ExpectedCount(fs: seq<Frame>): nat {
    SumSpans(fs, Epochs(fs))
  }

  function Ratio(n: nat, denominator: nat): real
    requires denominator > 0
  {
    n as real / denominator as real
  }

  /** `_data_quality` */
  function Quality(ordered: seq<Frame>, fs: seq<Frame>, aoi: Option<Aoi.Metadata>): DataQuality
    requires forall f :: f in ordered ==> f.Valid()
  {
    var expected := Max(|fs|, ExpectedCount(fs));
    var denominator := if expected == 0 then 1 else expected;
    DataQuality(expected, Ratio(CountGaze(fs), denominator), Ratio(CountExpression(fs), denominator),
                Ratio(CountBoth(fs), denominator), Ratio(CountAmbiguous(ordered, aoi), denominator))
  }

  // ----- Pigeonhole: sequence spans cover the frames -----

  function Elements(s: seq<nat>): set<nat> {
    set n | n in s
  }

  lemma {:induction false} DistinctSize(s: seq<nat>)
    requires forall i, j :: 0 <= i < j < |s| ==> s[i] != s[j]
    ensures |Elements(s)| == |s|
  {
    if s != [] {
      var init, last := s[..|s| - 1], s[|s| - 1];
      DistinctSize(init);
      assert s == init + [last];
      assert Elements(s) == Elements(init) + {last};
    }
  }

  /** A set of numbers fits in its span. */
  lemma {:induction false} Pigeonhole(s: set<nat>, low: nat, high: int)
    requires forall n :: n in s ==> low <= n <= high
    requires low <= high + 1
    ensures |s| <= high - low + 1
    decreases high + 1 - low
  {
    if low == high + 1 {
      assert s == {};
    } else {
      var rest := s - {low};
      Pigeonhole(rest, low + 1, high);
      assert s <= rest + {low};
      assert |s| <= |rest| + 1;
    }
  }

  ghost predicate DistinctSequences(fs: seq<Frame>) {
    forall i, j :: 0 <= i < j < |fs| ==> fs[i].sequence != fs[j].sequence
  }

  lemma {:induction false} SequencesDistinct(fs: seq<Frame>, epoch: nat)
    requires DistinctSequences(fs)
    ensures forall n :: n in Sequences(fs, epoch) ==> exists f :: f in fs && f.sequence == n
    ensures forall i, j :: 0 <= i < j < |Sequences(fs, epoch)| ==> Sequences(fs, epoch)[i] != Sequences(fs, epoch)[j]
  {
    if fs != [] {
      var init, f := fs[..|fs| - 1], fs[|fs| - 1];
      SequencesDistinct(init, epoch);
      assert fs == init + [f];
      forall n | n in Sequences(init, epoch) ensures n != f.sequence {
        var g :| g in init && g.sequence == n;
        var k :| 0 <= k < |init| && init[k] == g;
        assert fs[k] == g;
      }
      var before, all := Sequences(init, epoch), Sequences(fs, epoch);
      forall i, j | 0 <= i < j < |all| ensures all[i] != all[j] {
        assert all[i] == before[i] && before[i] in before;
      }
    }
  }

  lemma SpanCovers(fs: seq<Frame>, epoch: nat)
    requires DistinctSequences(fs)
    ensures |Sequences(fs, epoch)| <= Span(fs, epoch)
  {
    var s := Sequences(fs, epoch);
    if s != [] {
      SequencesDistinct(fs, epoch);
      DistinctSize(s);
      Pigeonhole(Elements(s), MinOf(s), MaxOf(s));
    }
  }

  function SumLengths(fs: seq<Frame>, epochs: seq<nat>): nat {
    if epochs == [] then 0 else |Sequences(fs, epochs[0])| + SumLengths(fs, epochs[1..])
  }

  lemma {:induction false} LengthsAppend(fs: seq<Frame>, epochs: seq<nat>, e: nat)
    ensures SumLengths(fs, epochs + [e]) == SumLengths(fs, epochs) + |Sequences(fs, e)|
  {
    if epochs != [] {
      assert (epochs + [e])[1..] == epochs[1..] + [e];
      LengthsAppend(fs, epochs[1..], e);
    }
  }

  /** One more frame adds one to the list of its own epoch and to no other. */
  lemma {:induction false} LengthsStep(init: seq<Frame>, f: Frame, epochs: seq<nat>)
    requires forall i, j :: 0 <= i < j < |epochs| ==> epochs[i] != epochs[j]
    ensures SumLengths(init + [f], epochs) == SumLengths(init, epochs) + if f.epoch in epochs then 1 else 0
  {
    if epochs != [] {
      assert (init + [f])[..|init|] == init;
      LengthsStep(init, f, epochs[1..]);
    }
  }

  lemma {:induction false} NoSequences(fs: seq<Frame>, e: nat)
    requires forall f :: f in fs ==> f.epoch != e
    ensures Sequences(fs, e) == []
  {
    if fs != [] {
      NoSequences(fs[..|fs| - 1], e);
    }
  }

  lemma {:induction false} EveryFrameCounted(fs: seq<Frame>)
    ensures SumLengths(fs, Epochs(fs)) == |fs|
  {
    if fs != [] {
      var init, f := fs[..|fs| - 1], fs[|fs| - 1];
      assert fs == init + [f];
      EveryFrameCounted(init);
      var es := Epochs(init);
      LengthsStep(init, f, Epochs(fs));
      if f.epoch !in es {
        NoSequences(init, f.epoch);
        LengthsAppend(init, es, f.epoch);
      }
    }
  }

  lemma {:induction false} SpansCover(fs: seq<Frame>, epochs: seq<nat>)
    requires DistinctSequences(fs)
    ensures SumLengths(fs, epochs) <= SumSpans(fs, epochs)
  {
    if epochs != [] {
      SpanCovers(fs, epochs[0]);
      SpansCover(fs, epochs[1..]);
    }
  }

  /** With unique sequence numbers the expected count never falls below the observed one. */
  lemma ExpectedCoversObserved(fs: seq<Frame>)
    requires DistinctSequences(fs)
    ensures ExpectedCount(fs) >= |fs|
    ensures forall e :: e in Epochs(fs) ==> Span(fs, e) >= |Sequences(fs, e)|
  {
    EveryFrameCounted(fs);
    SpansCover(fs, Epochs(fs));
    forall e | e in Epochs(fs) ensures Span(fs, e) >= |Sequences(fs, e)| {
      SpanCovers(fs, e);
    }
  }

  lemma RatioBounds(n: nat, d: nat)
    requires d > 0 && n <= d
    ensures 0.0 <= Ratio(n, d) <= 1.0
  {
  }

  /** Every quality ratio is a ratio. */
  lemma QualityValid(ordered: seq<Frame>, fs: seq<Frame>, aoi: Option<Aoi.Metadata>)
    requires (forall f :: f in ordered ==> f.Valid()) && |fs| == |ordered|
    ensures Quality(ordered, fs, aoi).Valid()
  {
    hide Ratio;
    var expected := Max(|fs|, ExpectedCount(fs));
    var d := if expected == 0 then 1 else expected;
    RatioBounds(CountGaze(fs), d);
    RatioBounds(CountExpression(fs), d);
    RatioBounds(CountBoth(fs), d);
    RatioBounds(CountAmbiguous(ordered, aoi), d);
  }

  // ----- The snapshot -----

  function InferredIds(fs: seq<Frame>): seq<string> {
    if fs == [] then [] else InferredIds(fs[..|fs| - 1]) + ProductIdsOf(Candidates(fs[|fs| - 1]))
  }

  function ProductIdsOf(cs: seq<Candidate>): seq<string> {
    seq(|cs|, i requires 0 <= i < |cs| => cs[i].productId)
  }

  function CatalogIds(productIds: seq<string>, fs: seq<Frame>): seq<string> {
    SortedSet(if productIds != [] then productIds else InferredIds(fs))
  }

  /** Frames attributed to some product. */
  function Unambiguous(fs: seq<Frame>): nat {
    if fs == [] then 0
    else Unambiguous(fs[..|fs| - 1]) + if Aoi.MappedProduct(fs[|fs| - 1]).Some? then 1 else 0
  }

  function GazeSummaryOf(frames: seq<Frame>, dwell: real, unambiguous: nat, comparisons: nat, returned: nat)
    : Option<GazeSummary>
  {
    if CountGaze(frames) == 0 then None
    else Some(GazeSummary(CountGaze(frames), dwell, Ratio(|frames|, if unambiguous == 0 then 1 else unambiguous),
                          if comparisons > 0 then Some(returned) else None))
  }

  function ExpressionSummaryOf(frames: seq<Frame>, s: Signals): Option<ExpressionSummary> {
    if CountExpression(frames) == 0 then None
    else Some(ExpressionSummary(CountExpression(frames),
                                Ratio(CountExpression(frames), |frames|),
                                if s.changes != {} then Some(s.changes) else None,
                                if s.changes != {} then Some(s.rates) else None, s.sustained))
  }

  function SummaryOf(fs: seq<Frame>, p: string): ProductSummary {
    var t, n := TrackOf(fs), |fs|;
    RunBounds(t, n);
    var frames := FramesOf(fs, n, p);
    var dwell := Dwell(t, RunsOf(t, n), p);
    ProductSummary(p, dwell, ComponentsOf(frames), TagsOf(frames),
                   GazeSummaryOf(frames, dwell, Unambiguous(fs), Comparisons(fs, n, p), ReturnCount(t, n, p)),
                   ExpressionSummaryOf(frames, SignalsOf(fs, n, p)))
  }

  function Summaries(fs: seq<Frame>, ids: seq<string>): (ss: seq<ProductSummary>)
    ensures |ss| == |ids| && forall i :: 0 <= i < |ids| ==> ss[i] == SummaryOf(fs, ids[i])
  {
    if ids == [] then [] else Summaries(fs, ids[..|ids| - 1]) + [SummaryOf(fs, ids[|ids| - 1])]
  }

  // ----- When a product's summary is refused -----

  /**
   The product has expression frames, and its frames name a changing signal but no rate, or more than 64
   sustained signals between them.
   */
  predicate ExpressionRefused(fs: seq<Frame>, p: string) {
    var s := SignalsOf(fs, |fs|, p);
    CountExpression(FramesOf(fs, |fs|, p)) > 0 && ((s.changes != {} && s.rates == {}) || |s.sustained| > MAX_SUSTAINED)
  }

  lemma {:induction false} DwellIsTime(fs: seq<Frame>, n: nat, p: string)
    requires n <= |fs|
    ensures (forall r :: r in RunsOf(TrackOf(fs), n) ==> r.start <= r.end < n)
    ensures Dwell(TrackOf(fs), RunsOf(TrackOf(fs), n), p) >= 0.0
  {
    hide RunsOf, Dwell, Aoi.MappedProduct;
    RunBounds(TrackOf(fs), n);
    if n == 0 {
      NoDwellYet(TrackOf(fs), p);
    } else {
      DwellIsTime(fs, n - 1, p);
      DwellStep(TrackOf(fs), n - 1, p);
    }
  }

  lemma NoDwellYet(t: RunDecomposition.Track, p: string)
    requires t.Valid()
    ensures RunsOf(t, 0) == [] && Dwell(t, [], p) == 0.0
  {
  }

  lemma {:induction false} FramesAreAttributed(fs: seq<Frame>, n: nat, p: string)
    requires n <= |fs|
    ensures |FramesOf(fs, n, p)| <= Unambiguous(fs[..n])
  {
    hide Aoi.MappedProduct;
    if n > 0 {
      FramesAreAttributed(fs, n - 1, p);
      assert fs[..n][..n - 1] == fs[..n - 1];
    }
  }

  /** Everything else in a product's summary fits its data model. */
  lemma SummaryFits(fs: seq<Frame>, p: string)
    ensures SummaryOf(fs, p).Valid() <==> !ExpressionRefused(fs, p)
  {
    hide TrackOf, RunsOf, Dwell, FramesOf, Unambiguous, Ratio, SignalsOf, Comparisons, ReturnCount, ComponentsOf, TagsOf;
    var frames := FramesOf(fs, |fs|, p);
    DwellIsTime(fs, |fs|, p);
    FramesAreAttributed(fs, |fs|, p);
    assert fs[..|fs|] == fs;
    var unambiguous := Unambiguous(fs);
    RatioBounds(|frames|, if unambiguous == 0 then 1 else unambiguous);
    if CountExpression(frames) > 0 {
      RatioBounds(CountExpression(frames), |frames|);
    }
  }

  lemma SummariesFit(fs: seq<Frame>, ids: seq<string>)
    ensures (exists s :: s in Summaries(fs, ids) && !s.Valid()) <==> exists p :: p in ids && ExpressionRefused(fs, p)
  {
    hide SummaryOf, ExpressionRefused, ProductSummary.Valid;
    var ss := Summaries(fs, ids);
    forall i | 0 <= i < |ids| ensures ss[i].Valid() <==> !ExpressionRefused(fs, ids[i]) {
      SummaryFits(fs, ids[i]);
    }
    if p :| p in ids && ExpressionRefused(fs, p) {
      var i :| 0 <= i < |ids| && ids[i] == p;
      assert ss[i] in ss;
    }
  }

  function EligibleIds(fs: seq<Frame>, ids: seq<string>): set<string> {
    set p | p in ids && Eligible(fs, p)
  }

  /** Some gaze frame was attributed to the product. */
  predicate Eligible(fs: seq<Frame>, p: string) {
    CountGaze(FramesOf(fs, |fs|, p)) > 0
  }

  /** `EvidenceWindowV2` number `k + 1` */
  function WindowView(k: nat, w: RawWindow): Window
    requires k + 1 < Pow10(4)
  {
    Window(WindowId(k + 1), w.productId, w.start.sessionOffset, w.end.sessionOffset, w.start.videoTime,
           w.end.videoTime, w.start.epoch, w.components, w.visualTags, w.codes)
  }

  lemma RunsFit(fs: seq<Frame>)
    ensures |RunsOf(TrackOf(fs), |fs|)| <= |fs|
    ensures forall r :: r in RunsOf(TrackOf(fs), |fs|) ==> r.start <= r.end < |fs|
    ensures Pow10(4) == 10000
  {
    RunCount(TrackOf(fs), |fs|);
    RunBounds(TrackOf(fs), |fs|);
    assert Pow10(4) == 10 * (10 * (10 * (10 * Pow10(0))));
  }

  lemma {:induction false} RunCount(t: RunDecomposition.Track, n: nat)
    requires t.Valid() && n <= |t.labels|
    ensures |RunsOf(t, n)| <= n
  {
    if n > 0 {
      RunCount(t, n - 1);
      RunsStep(t, n - 1);
    }
  }

  function WindowsOf(fs: seq<Frame>): (ws: seq<Window>)
    requires |fs| <= MAX_TIMELINE
    ensures |ws| == |RunsOf(TrackOf(fs), |fs|)|
  {
    RunsFit(fs);
    var rs := RunsOf(TrackOf(fs), |fs|);
    seq(|rs|, k requires 0 <= k < |rs| =>
      assert rs[k] in rs; WindowView(k, WindowOf(fs, rs[k])))
  }

  /** What `summarize_observations` returns or raises. */
  function Summarized(observations: seq<Frame>, aoi: Option<Aoi.Metadata>, productIds: seq<string>, input: Variant)
    : Result<Snapshot, EvidenceError>
    requires forall f :: f in observations ==> f.Valid()
  {
    SortMembers(FrameLess, observations);
    var ordered := Ordered(observations);
    if ordered == [] then Err(NoObservations)
    else if |ordered| > MAX_TIMELINE then Err(TimelineTooLong)
    else
      var fs := Enriched(ordered, aoi);
      var ids := CatalogIds(productIds, fs);
      if ids == [] then Err(NoCatalogProducts)
      else if |ids| > MAX_CATALOG then Err(TooManyCatalogProducts)
      else
        var windows := WindowsOf(fs);
        if exists s :: s in Summaries(fs, ids) && !s.Valid() then Err(InvalidSummary)
        else if exists w :: w in windows && !w.Valid() then Err(WindowBackwards)
        else
          var variant := if windows == [] then B else input;
          if variant != B && |windows| > MAX_WINDOWS then Err(TooManyWindows)
          else
            Ok(Snapshot(EvidenceV2(variant, Quality(ordered, fs, aoi), Summaries(fs, ids),
                                   if variant != B then Some(windows) else None,
                                   if variant != C then Some(fs) else None),
                        EligibleIds(fs, ids)))
  }

  /** `summarize_observations` */
  method SummarizeObservations(observations: seq<Frame>, aoi: Option<Aoi.Metadata>, productIds: seq<string>,
                               input: Variant)
    returns (r: Result<Snapshot, EvidenceError>)
    requires forall f :: f in observations ==> f.Valid()
    ensures r == Summarized(observations, aoi, productIds, input)
    ensures r.Ok? ==> r.value.evidence.Valid() && r.value.evidence.quality.Valid()
  {
    hide Quality, WindowsOf, Summaries, EligibleIds, Enriched, CatalogIds, TotalsAre, Frame.Valid, Window.Valid,
      DataQuality.Valid, ProductSummary.Valid;
    SortMembers(FrameLess, observations);
    var ordered := Ordered(observations);
    if ordered == [] {
      return Err(NoObservations);
    }
    if |ordered| > MAX_TIMELINE {
      return Err(TimelineTooLong);
    }
    var fs := Enriched(ordered, aoi);
    var ids := CatalogIds(productIds, fs);
    if ids == [] {
      return Err(NoCatalogProducts);
    }
    if |ids| > MAX_CATALOG {
      return Err(TooManyCatalogProducts);
    }
    QualityValid(ordered, fs, aoi);
    var totals := Aggregate(fs);
    var summaries, eligible, fitting := SummarizeProducts(fs, totals, ids);
    if !fitting {
      return Err(InvalidSummary);
    }
    var windows, forward := NumberWindows(fs, totals);
    if !forward {
      return Err(WindowBackwards);
    }
    var variant := if windows == [] then B else input;
    if variant != B && |windows| > MAX_WINDOWS {
      return Err(TooManyWindows);
    }
    r := Ok(Snapshot(EvidenceV2(variant, Quality(ordered, fs, aoi), summaries,
                                if variant != B then Some(windows) else None,
                                if variant != C then Some(fs) else None), eligible));
  }

  method SummarizeProducts(fs: seq<Frame>, totals: Totals, ids: seq<string>)
    returns (summaries: seq<ProductSummary>, eligible: set<string>, fitting: bool)
    requires TotalsAre(fs, totals)
    ensures summaries == Summaries(fs, ids) && eligible == EligibleIds(fs, ids)
    ensures fitting == !exists s :: s in summaries && !s.Valid()
  {
    hide TotalsAre, Unambiguous, CountGaze, SummaryOf, FramesOf, GazeSummaryOf, ExpressionSummaryOf, ProductSummary.Valid;
    summaries, eligible, fitting := [], {}, true;
    var unambiguous := Unambiguous(fs);
    for i := 0 to |ids|
      invariant summaries == Summaries(fs, ids[..i]) && eligible == EligibleIds(fs, ids[..i])
      invariant fitting == !exists s :: s in summaries && !s.Valid()
    {
      var p := ids[i];
      var frames := Lookup(totals.framesByProduct, p, []);
      var dwell := Lookup(totals.dwellMs, p, 0.0);
      if CountGaze(frames) > 0 {
        eligible := eligible + {p};
      }
      var summary := ProductSummary(p, dwell, Lookup(totals.components, p, {}), Lookup(totals.visualTags, p, {}),
                                    GazeSummaryOf(frames, dwell, unambiguous, Lookup(totals.comparisons, p, 0),
                                                  Lookup(totals.returnCounts, p, 0)),
                                    ExpressionSummaryOf(frames, Lookup(totals.signals, p, NoSignals)));
      TotalsGive(fs, totals, p);
      EligibleStep(fs, ids, i);
      summaries := summaries + [summary];
      fitting := fitting && summary.Valid();
      assert ids[..i + 1][..i] == ids[..i];
    }
    assert ids[..|ids|] == ids;
  }

  lemma EligibleStep(fs: seq<Frame>, ids: seq<string>, i: nat)
    requires i < |ids|
    ensures EligibleIds(fs, ids[..i + 1]) ==
      EligibleIds(fs, ids[..i]) + if Eligible(fs, ids[i]) then {ids[i]} else {}
  {
    hide Eligible;
    forall p ensures p in ids[..i + 1] <==> p in ids[..i] || p == ids[i] {
      assert ids[..i + 1] == ids[..i] + [ids[i]];
    }
  }

  lemma TotalsGive(fs: seq<Frame>, totals: Totals, p: string)
    requires TotalsAre(fs, totals)
    ensures Lookup(totals.framesByProduct, p, []) == FramesOf(fs, |fs|, p)
    ensures var frames, dwell := FramesOf(fs, |fs|, p), Lookup(totals.dwellMs, p, 0.0);
      SummaryOf(fs, p) ==
      ProductSummary(p, dwell, Lookup(totals.components, p, {}), Lookup(totals.visualTags, p, {}),
                     GazeSummaryOf(frames, dwell, Unambiguous(fs), Lookup(totals.comparisons, p, 0),
                                   Lookup(totals.returnCounts, p, 0)),
                     ExpressionSummaryOf(frames, Lookup(totals.signals, p, NoSignals)))
  {
    hide GazeSummaryOf, ExpressionSummaryOf, WindowsAre, Unambiguous, Resets, Lookup, SignalsOf;
    TotalsLookups(fs, totals, p);
    hide TotalsAre, FramesOf, RunsOf, TrackOf, Dwell, ReturnCount, Comparisons, ComponentsOf, TagsOf;
  }

  lemma TotalsLookups(fs: seq<Frame>, totals: Totals, p: string)
    requires TotalsAre(fs, totals)
    ensures forall r :: r in RunsOf(TrackOf(fs), |fs|) ==> r.start <= r.end < |fs|
    ensures Lookup(totals.framesByProduct, p, []) == FramesOf(fs, |fs|, p)
    ensures Lookup(totals.dwellMs, p, 0.0) == Dwell(TrackOf(fs), RunsOf(TrackOf(fs), |fs|), p)
    ensures Lookup(totals.returnCounts, p, 0) == ReturnCount(TrackOf(fs), |fs|, p)
    ensures Lookup(totals.comparisons, p, 0) == Comparisons(fs, |fs|, p)
    ensures Lookup(totals.components, p, {}) == ComponentsOf(FramesOf(fs, |fs|, p))
    ensures Lookup(totals.visualTags, p, {}) == TagsOf(FramesOf(fs, |fs|, p))
    ensures Lookup(totals.signals, p, NoSignals) == SignalsOf(fs, |fs|, p)
  {
    hide WindowsAre, RunsOf, TrackOf, Dwell, ReturnCount, Comparisons, ComponentsOf, TagsOf, FramesOf, Lookup,
      SignalsOf;
  }

  method NumberWindows(fs: seq<Frame>, totals: Totals) returns (windows: seq<Window>, forward: bool)
    requires |fs| <= MAX_TIMELINE && TotalsAre(fs, totals)
    ensures windows == WindowsOf(fs) && forward == !exists w :: w in windows && !w.Valid()
  {
    hide TotalsAre, WindowsOf, Window.Valid, WindowView, Pow10;
    RunsFit(fs);
    WindowCount(fs, totals);
    windows, forward := [], true;
    for k := 0 to |totals.windows|
      invariant windows == WindowsOf(fs)[..k]
      invariant forward == !exists w :: w in windows && !w.Valid()
    {
      ViewAt(fs, totals, k);
      var view := WindowView(k, totals.windows[k]);
      windows := windows + [view];
      forward := forward && view.Valid();
    }
  }

  lemma WindowCount(fs: seq<Frame>, totals: Totals)
    requires |fs| <= MAX_TIMELINE && TotalsAre(fs, totals)
    ensures |totals.windows| == |WindowsOf(fs)| <= MAX_TIMELINE
  {
    hide WindowOf, WindowView, FramesAre, DwellIs, ReturnsAre, ComparisonsAre, PartsAre, RunsOf;
    RunsFit(fs);
  }

  lemma ViewAt(fs: seq<Frame>, totals: Totals, k: nat)
    requires |fs| <= MAX_TIMELINE && TotalsAre(fs, totals) && k < |totals.windows|
    ensures k < |WindowsOf(fs)| && k + 1 < Pow10(4) && WindowsOf(fs)[k] == WindowView(k, totals.windows[k])
  {
    hide WindowOf, WindowView, FramesAre, DwellIs, ReturnsAre, ComparisonsAre, PartsAre, RunsOf, Pow10;
    RunsFit(fs);
  }
}
