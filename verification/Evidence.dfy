/**
 Deterministic evidence aggregation (`v2_evidence.py`): one loop over the ordered frames, proved
 against the run decomposition of the frames' product labels.
 */
module Evidence {
  import opened Common
  import opened Observations
  import opened RunDecomposition
  import Aoi = AoiMetadata

  const MAX_CONTINUOUS_GAP_MS := 1000.0

  datatype EvidenceCode =
    | ObservedAttention
    | ReturnCandidate
    | GazeMovement
    | FaceActionChange
    | ProductTagMatch
    | DataQualityCode

  // ----- Labels and breaks -----

  predicate Discontinuous(previous: Frame, frame: Frame) {
    || frame.epoch != previous.epoch
    || frame.videoTime < previous.videoTime
    || frame.sequence <= previous.sequence
    || frame.capturedAt - previous.capturedAt < 0.0
    || frame.capturedAt - previous.capturedAt > MAX_CONTINUOUS_GAP_MS
  }

  /** Frame `i` does not follow its predecessor continuously; the first frame has none. */
  predicate BreakAt(fs: seq<Frame>, i: nat)
    requires i < |fs|
  {
    i == 0 || Discontinuous(fs[i - 1], fs[i])
  }

  function TrackOf(fs: seq<Frame>): (t: Track)
    ensures t.Valid() && |t.labels| == |fs|
    ensures forall i :: 0 <= i < |fs| ==> t.labels[i] == Aoi.MappedProduct(fs[i])
    ensures forall i :: 0 <= i < |fs| ==> t.breaks[i] == BreakAt(fs, i)
    ensures forall i :: 0 <= i < |fs| ==> t.times[i] == fs[i].capturedAt
  {
    Track(seq(|fs|, i requires 0 <= i < |fs| => Aoi.MappedProduct(fs[i])),
          seq(|fs|, i requires 0 <= i < |fs| => BreakAt(fs, i)),
          seq(|fs|, i requires 0 <= i < |fs| => fs[i].capturedAt))
  }

  // ----- Per-frame facts and their sums over the first n frames -----

  function Candidates(f: Frame): seq<Candidate> {
    if f.attention.value.Some? then f.attention.value.value.candidates else []
  }

  function Components(f: Frame): set<string> {
    set c | c in Candidates(f) :: c.componentCode
  }

  function Tags(f: Frame): set<string> {
    set c, tag | c in Candidates(f) && tag in c.visualTags :: tag
  }

  /** The loop's `discontinuity` flag, which stays false on the very first frame. */
  predicate Resumes(fs: seq<Frame>, i: nat)
    requires i < |fs|
  {
    i > 0 && BreakAt(fs, i)
  }

  /** What the derived part of the frames says about one product. */
  datatype Signals = Signals(moved: bool, changes: set<string>, rates: set<string>, sustained: set<string>)

  const NoSignals := Signals(false, {}, {}, {})

  function Plus(a: Signals, b: Signals): Signals {
    Signals(a.moved || b.moved, a.changes + b.changes, a.rates + b.rates, a.sustained + b.sustained)
  }

  /** Changes and rates are recorded key by key, so a missing map and an empty one leave the same trace. */
  function FrameSignals(f: Frame): Signals {
    if f.derived.value.None? then NoSignals
    else
      var d := f.derived.value.value;
      if d.expression.None? then Signals(d.movement.Some?, {}, {}, {})
      else
        var e := d.expression.value;
        Signals(d.movement.Some?,
                if e.scoreChanges.Some? then e.scoreChanges.value.Keys else {},
                if e.scoreChanges.Some? && e.changeRates.Some? then e.changeRates.value.Keys else {},
                set a | a in e.sustained :: a.signal)
  }

  /** Which of the first `n` frames contribute signals of `p`: those mapped to it that follow continuously. */
  predicate Contributes(fs: seq<Frame>, i: nat, p: string)
    requires i < |fs|
  {
    Aoi.MappedProduct(fs[i]) == Some(p) && !Resumes(fs, i)
  }

  function SignalsOf(fs: seq<Frame>, n: nat, p: string): Signals
    requires n <= |fs|
  {
    if n == 0 then NoSignals
    else Plus(SignalsOf(fs, n - 1, p), if Contributes(fs, n - 1, p) then FrameSignals(fs[n - 1]) else NoSignals)
  }

  /** A signal was recorded exactly if some contributing frame carries it. */
  lemma {:induction false} SignalsMean(fs: seq<Frame>, n: nat, p: string)
    requires n <= |fs|
    ensures SignalsOf(fs, n, p).moved <==> exists i :: 0 <= i < n && Contributes(fs, i, p) && FrameSignals(fs[i]).moved
    ensures forall x :: x in SignalsOf(fs, n, p).changes <==>
              exists i :: 0 <= i < n && Contributes(fs, i, p) && x in FrameSignals(fs[i]).changes
    ensures forall x :: x in SignalsOf(fs, n, p).rates <==>
              exists i :: 0 <= i < n && Contributes(fs, i, p) && x in FrameSignals(fs[i]).rates
    ensures forall x :: x in SignalsOf(fs, n, p).sustained <==>
              exists i :: 0 <= i < n && Contributes(fs, i, p) && x in FrameSignals(fs[i]).sustained
  {
    hide FrameSignals, Contributes;
    if n > 0 {
      SignalsMean(fs, n - 1, p);
    }
  }

  /** The frames mapped to `p`, in order. */
  function FramesOf(fs: seq<Frame>, n: nat, p: string): seq<Frame>
    requires n <= |fs|
  {
    if n == 0 then []
    else FramesOf(fs, n - 1, p) + if Aoi.MappedProduct(fs[n - 1]) == Some(p) then [fs[n - 1]] else []
  }

  /** How many frames mapped to `p` continue some segment. */
  function Comparisons(fs: seq<Frame>, n: nat, p: string): nat
    requires n <= |fs|
  {
    if n == 0 then 0
    else
      Comparisons(fs, n - 1, p)
      + if Aoi.MappedProduct(fs[n - 1]) == Some(p) && !BreakAt(fs, n - 1) then 1 else 0
  }

  function Resets(fs: seq<Frame>, n: nat): nat
    requires n <= |fs|
  {
    if n == 0 then 0 else Resets(fs, n - 1) + if n > 1 && BreakAt(fs, n - 1) then 1 else 0
  }

  function ComponentsOf(fs: seq<Frame>): set<string> {
    set f, c | f in fs && c in Components(f) :: c
  }

  function TagsOf(fs: seq<Frame>): set<string> {
    set f, tag | f in fs && tag in Tags(f) :: tag
  }

  // ----- Windows -----

  /**
   The codes a window of `p` carries once the first `n` frames were read. They are cumulative for the
   product, not local to the window.
   */
  function CodesAt(fs: seq<Frame>, n: nat, p: string): set<EvidenceCode>
    requires n <= |fs|
  {
    {ObservedAttention}
    + (if ReturnCount(TrackOf(fs), n, p) > 0 then {ReturnCandidate} else {})
    + (if SignalsOf(fs, n, p).moved then {GazeMovement} else {})
    + (if SignalsOf(fs, n, p).changes != {} then {FaceActionChange} else {})
  }

  datatype RawWindow = RawWindow(productId: string, start: Frame, end: Frame, codes: set<EvidenceCode>,
                                 components: set<string>, visualTags: set<string>)

  /** The window that the loop closes for a run. */
  function WindowOf(fs: seq<Frame>, r: Run): RawWindow
    requires r.start <= r.end < |fs|
  {
    RawWindow(r.name, fs[r.start], fs[r.end], CodesAt(fs, r.end + 1, r.name),
              ComponentsOf(fs[r.start..r.end + 1]), TagsOf(fs[r.start..r.end + 1]))
  }

  /** All accumulators of the loop. */
  datatype Totals = Totals(
    windows: seq<RawWindow>,
    framesByProduct: map<string, seq<Frame>>,
    dwellMs: map<string, real>,
    returnCounts: map<string, nat>,
    comparisons: map<string, nat>,
    components: map<string, set<string>>,
    visualTags: map<string, set<string>>,
    signals: map<string, Signals>,
    resets: nat)

  ghost predicate TotalsAre(fs: seq<Frame>, totals: Totals) {
    var t, n := TrackOf(fs), |fs|;
    && WindowsAre(fs, n, RunsOf(t, n), totals.windows)
    && FramesAre(fs, n, totals.framesByProduct) && DwellIs(fs, n, totals.dwellMs)
    && ReturnsAre(fs, n, totals.returnCounts) && ComparisonsAre(fs, n, totals.comparisons)
    && PartsAre(fs, n, totals.components, totals.visualTags) && SignalsAre(fs, n, totals.signals)
    && totals.resets == Resets(fs, n)
  }

  ghost predicate WindowsAre(fs: seq<Frame>, n: nat, rs: seq<Run>, windows: seq<RawWindow>)
    requires n <= |fs|
  {
    && |windows| == |rs|
    && (forall k :: 0 <= k < |rs| ==> rs[k].start <= rs[k].end < n && windows[k] == WindowOf(fs, rs[k]))
  }

  ghost predicate FramesAre(fs: seq<Frame>, n: nat, m: map<string, seq<Frame>>)
    requires n <= |fs|
  {
    forall p :: Lookup(m, p, []) == FramesOf(fs, n, p)
  }

  ghost predicate DwellIs(fs: seq<Frame>, n: nat, m: map<string, real>)
    requires n <= |fs|
  {
    var t := TrackOf(fs);
    && (forall r :: r in RunsOf(t, n) ==> r.start <= r.end < n)
    && (forall p :: Lookup(m, p, 0.0) == Dwell(t, RunsOf(t, n), p))
  }

  ghost predicate ReturnsAre(fs: seq<Frame>, n: nat, m: map<string, nat>)
    requires n <= |fs|
  {
    forall p :: Lookup(m, p, 0) == ReturnCount(TrackOf(fs), n, p)
  }

  ghost predicate ComparisonsAre(fs: seq<Frame>, n: nat, m: map<string, nat>)
    requires n <= |fs|
  {
    forall p :: Lookup(m, p, 0) == Comparisons(fs, n, p)
  }

  ghost predicate PartsAre(fs: seq<Frame>, n: nat, components: map<string, set<string>>, tags: map<string, set<string>>)
    requires n <= |fs|
  {
    && (forall p :: Lookup(components, p, {}) == ComponentsOf(FramesOf(fs, n, p)))
    && (forall p :: Lookup(tags, p, {}) == TagsOf(FramesOf(fs, n, p)))
  }

  ghost predicate SignalsAre(fs: seq<Frame>, n: nat, m: map<string, Signals>)
    requires n <= |fs|
  {
    forall p :: Lookup(m, p, NoSignals) == SignalsOf(fs, n, p)
  }

  // ----- One frame at a time -----

  /** The closed windows, and the open one if any, are the runs of the first `n` frames. */
  ghost predicate WindowState(fs: seq<Frame>, n: nat, closed: seq<RawWindow>, window: Option<RawWindow>)
    requires n <= |fs|
  {
    && WindowsAre(fs, n, RunsOf(TrackOf(fs), n), Closing(closed, window))
    && (if n == 0 then window.None?
        else if window.Some? then Aoi.MappedProduct(fs[n - 1]) == Some(window.value.productId)
        else Aoi.MappedProduct(fs[n - 1]).None?)
  }

  /** `close_window` */
  function Closing(closed: seq<RawWindow>, window: Option<RawWindow>): seq<RawWindow> {
    if window.Some? then closed + [window.value] else closed
  }

  lemma NoProductStep(fs: seq<Frame>, n: nat, closed: seq<RawWindow>, window: Option<RawWindow>)
    requires n < |fs| && WindowState(fs, n, closed, window) && Aoi.MappedProduct(fs[n]).None?
    ensures WindowState(fs, n + 1, Closing(closed, window), None)
  {
    hide RunsOf, WindowOf, TrackOf, Aoi.MappedProduct;
    RunsStep(TrackOf(fs), n);
  }

  lemma NewWindowStep(fs: seq<Frame>, n: nat, closed: seq<RawWindow>, window: Option<RawWindow>, started: RawWindow)
    requires n < |fs| && WindowState(fs, n, closed, window)
    requires Aoi.MappedProduct(fs[n]).Some? && !Continues(TrackOf(fs), n)
    requires started == RawWindow(Aoi.MappedProduct(fs[n]).value, fs[n], fs[n],
                                CodesAt(fs, n + 1, Aoi.MappedProduct(fs[n]).value), Components(fs[n]), Tags(fs[n]))
    ensures WindowState(fs, n + 1, Closing(closed, window), Some(started))
  {
    hide RunsOf, TrackOf, Aoi.MappedProduct, CodesAt, Components, Tags;
    RunsStep(TrackOf(fs), n);
    var r := Run(n, n, Aoi.MappedProduct(fs[n]).value);
    SingleWindow(fs, n, r);
    hide WindowOf;
  }

  lemma SingleWindow(fs: seq<Frame>, n: nat, r: Run)
    requires n < |fs| && r.start == r.end == n
    ensures WindowOf(fs, r) == RawWindow(r.name, fs[n], fs[n], CodesAt(fs, n + 1, r.name), Components(fs[n]), Tags(fs[n]))
  {
    hide CodesAt, Components, Tags;
    assert fs[n..n + 1] == [fs[n]];
    assert ComponentsOf([fs[n]]) == Components(fs[n]) && TagsOf([fs[n]]) == Tags(fs[n]);
  }

  lemma GrownWindow(fs: seq<Frame>, n: nat, r: Run)
    requires n < |fs| && r.start <= r.end == n - 1
    ensures WindowOf(fs, r.(end := n)) ==
      RawWindow(r.name, fs[r.start], fs[n], WindowOf(fs, r).codes + CodesAt(fs, n + 1, r.name),
                WindowOf(fs, r).components + Components(fs[n]), WindowOf(fs, r).visualTags + Tags(fs[n]))
  {
    hide CodesAt, Components, Tags, ComponentsOf, TagsOf;
    CodesGrow(fs, n, r.name);
    PartsGrow(fs, r.start, n);
    assert CodesAt(fs, n, r.name) + CodesAt(fs, n + 1, r.name) == CodesAt(fs, n + 1, r.name);
  }

  lemma {:induction false} CodesGrow(fs: seq<Frame>, n: nat, p: string)
    requires n < |fs|
    ensures CodesAt(fs, n, p) <= CodesAt(fs, n + 1, p)
  {
    hide FrameSignals, Contributes;
    var next := SignalsOf(fs, n + 1, p);
    assert SignalsOf(fs, n, p).changes <= next.changes;
  }

  lemma PartsGrow(fs: seq<Frame>, a: nat, n: nat)
    requires a <= n < |fs|
    ensures ComponentsOf(fs[a..n + 1]) == ComponentsOf(fs[a..n]) + Components(fs[n])
    ensures TagsOf(fs[a..n + 1]) == TagsOf(fs[a..n]) + Tags(fs[n])
  {
    hide Components, Tags;
    assert fs[a..n + 1] == fs[a..n] + [fs[n]];
  }

  lemma GrowWindowStep(fs: seq<Frame>, n: nat, closed: seq<RawWindow>, window: RawWindow, grown: RawWindow)
    requires n < |fs| && WindowState(fs, n, closed, Some(window)) && Continues(TrackOf(fs), n)
    requires grown == RawWindow(window.productId, window.start, fs[n],
                                window.codes + CodesAt(fs, n + 1, window.productId),
                                window.components + Components(fs[n]), window.visualTags + Tags(fs[n]))
    ensures WindowState(fs, n + 1, closed, Some(grown))
  {
    hide RunsOf, TrackOf, Aoi.MappedProduct, CodesAt, Components, Tags, WindowOf;
    var rs := RunsOf(TrackOf(fs), n);
    RunsStep(TrackOf(fs), n);
    var r := rs[|rs| - 1];
    assert Closing(closed, Some(window))[|rs| - 1] == window == WindowOf(fs, r);
    LastStart(fs, n, r);
    GrownWindow(fs, n, r);
    forall k | 0 <= k < |rs| - 1
      ensures rs[k].start <= rs[k].end < n && closed[k] == WindowOf(fs, rs[k])
    {
      assert Closing(closed, Some(window))[k] == closed[k];
    }
  }

  lemma LastStart(fs: seq<Frame>, n: nat, r: Run)
    requires n < |fs| && r.start <= r.end < n
    ensures WindowOf(fs, r).productId == r.name && WindowOf(fs, r).start == fs[r.start]
  {
  }

  lemma DwellAdvance(fs: seq<Frame>, n: nat, dwellMs: map<string, real>, next: map<string, real>)
    requires n < |fs| && DwellIs(fs, n, dwellMs)
    requires var p := Aoi.MappedProduct(fs[n]);
      next == if Continues(TrackOf(fs), n)
              then dwellMs[p.value := Lookup(dwellMs, p.value, 0.0) + (fs[n].capturedAt - fs[n - 1].capturedAt)]
              else dwellMs
    ensures DwellIs(fs, n + 1, next)
  {
    var t := TrackOf(fs);
    RunBounds(t, n + 1);
    forall p ensures Lookup(next, p, 0.0) == Dwell(t, RunsOf(t, n + 1), p) {
      DwellStep(t, n, p);
    }
  }

  lemma FramesAdvance(fs: seq<Frame>, n: nat, m: map<string, seq<Frame>>, next: map<string, seq<Frame>>)
    requires n < |fs| && FramesAre(fs, n, m)
    requires var p := Aoi.MappedProduct(fs[n]);
      next == if p.Some? then m[p.value := Lookup(m, p.value, []) + [fs[n]]] else m
    ensures FramesAre(fs, n + 1, next)
  {
    hide Aoi.MappedProduct;
    forall p ensures Lookup(next, p, []) == FramesOf(fs, n + 1, p) {
      assert FramesOf(fs, n, p) + [] == FramesOf(fs, n, p);
    }
  }

  lemma ReturnsAdvance(fs: seq<Frame>, n: nat, m: map<string, nat>, next: map<string, nat>)
    requires n < |fs| && ReturnsAre(fs, n, m)
    requires var p := Aoi.MappedProduct(fs[n]);
      next == if p.Some? && Returns(TrackOf(fs), n, p.value) then m[p.value := Lookup(m, p.value, 0) + 1] else m
    ensures ReturnsAre(fs, n + 1, next)
  {
    hide Aoi.MappedProduct;
    var t := TrackOf(fs);
    forall p ensures Lookup(next, p, 0) == ReturnCount(t, n + 1, p) {
      assert t.labels[n] == Aoi.MappedProduct(fs[n]);
    }
  }

  lemma ComparisonsAdvance(fs: seq<Frame>, n: nat, m: map<string, nat>, next: map<string, nat>)
    requires n < |fs| && ComparisonsAre(fs, n, m)
    requires var p := Aoi.MappedProduct(fs[n]);
      next == if p.Some? && !BreakAt(fs, n) then m[p.value := Lookup(m, p.value, 0) + 1] else m
    ensures ComparisonsAre(fs, n + 1, next)
  {
    hide Aoi.MappedProduct, BreakAt;
    forall p ensures Lookup(next, p, 0) == Comparisons(fs, n + 1, p) {
      assert Lookup(m, p, 0) == Comparisons(fs, n, p);
    }
  }

  lemma PartsConcat(fs: seq<Frame>, f: Frame)
    ensures ComponentsOf(fs + [f]) == ComponentsOf(fs) + Components(f)
    ensures TagsOf(fs + [f]) == TagsOf(fs) + Tags(f)
  {
    hide Components, Tags;
  }

  lemma PartsAdvance(fs: seq<Frame>, n: nat, c: map<string, set<string>>, nextC: map<string, set<string>>,
                     t: map<string, set<string>>, nextT: map<string, set<string>>)
    requires n < |fs| && PartsAre(fs, n, c, t)
    requires var p := Aoi.MappedProduct(fs[n]);
      if p.Some? then
        nextC == c[p.value := Lookup(c, p.value, {}) + Components(fs[n])]
        && nextT == t[p.value := Lookup(t, p.value, {}) + Tags(fs[n])]
      else nextC == c && nextT == t
    ensures PartsAre(fs, n + 1, nextC, nextT)
  {
    hide Aoi.MappedProduct, Components, Tags, ComponentsOf, TagsOf;
    var product := Aoi.MappedProduct(fs[n]);
    if product.Some? {
      PartsConcat(FramesOf(fs, n, product.value), fs[n]);
    }
    forall p | product != Some(p) ensures FramesOf(fs, n + 1, p) == FramesOf(fs, n, p) {
      assert FramesOf(fs, n, p) + [] == FramesOf(fs, n, p);
    }
  }

  lemma SignalsAdvance(fs: seq<Frame>, n: nat, m: map<string, Signals>, next: map<string, Signals>)
    requires n < |fs| && SignalsAre(fs, n, m)
    requires var p := Aoi.MappedProduct(fs[n]);
      next == if p.Some? && !Resumes(fs, n) then m[p.value := Plus(Lookup(m, p.value, NoSignals), FrameSignals(fs[n]))] else m
    ensures SignalsAre(fs, n + 1, next)
  {
    hide Aoi.MappedProduct, Resumes, FrameSignals;
    forall p ensures Lookup(next, p, NoSignals) == SignalsOf(fs, n + 1, p) {
      assert Lookup(m, p, NoSignals) == SignalsOf(fs, n, p);
      NothingAdded(SignalsOf(fs, n, p));
    }
  }

  lemma NothingAdded(s: Signals)
    ensures Plus(s, NoSignals) == s
  {
    assert s.changes + {} == s.changes && s.rates + {} == s.rates && s.sustained + {} == s.sustained;
  }

  /** The main loop of `summarize_observations`. */
  method Aggregate(fs: seq<Frame>) returns (totals: Totals)
    ensures TotalsAre(fs, totals)
  {
    hide Aoi.MappedProduct, TrackOf, WindowState, FramesAre, DwellIs, ReturnsAre, ComparisonsAre, PartsAre, SignalsAre,
      TotalsAre, Discontinuous, CodesAt, Components, Tags, RunsOf, Dwell, FrameSignals, Plus, SignalsOf;
    NothingYet(fs);
    var windows: seq<RawWindow> := [];
    var window: Option<RawWindow> := None;
    var framesByProduct: map<string, seq<Frame>> := map[];
    var dwellMs: map<string, real> := map[];
    var returnCounts: map<string, nat> := map[];
    var comparisons: map<string, nat> := map[];
    var components: map<string, set<string>> := map[];
    var visualTags: map<string, set<string>> := map[];
    var signals: map<string, Signals> := map[];
    var seen: set<string> := {};
    var previousProduct: Option<string> := None;
    var resets: nat := 0;
    ghost var t := TrackOf(fs);
    for i := 0 to |fs|
      invariant WindowState(fs, i, windows, window)
      invariant FramesAre(fs, i, framesByProduct) && DwellIs(fs, i, dwellMs)
      invariant ReturnsAre(fs, i, returnCounts) && ComparisonsAre(fs, i, comparisons)
      invariant PartsAre(fs, i, components, visualTags) && SignalsAre(fs, i, signals)
      invariant seen == Seen(t, i) && resets == Resets(fs, i)
      invariant previousProduct == if i == 0 then None else Aoi.MappedProduct(fs[i - 1])
    {
      ghost var before := (framesByProduct, dwellMs, returnCounts, comparisons, components, visualTags, signals);
      ghost var closed, open := windows, window;
      var frame := fs[i];
      var discontinuity := i > 0 && Discontinuous(fs[i - 1], frame);
      if discontinuity {
        resets := resets + 1;
        previousProduct := None;
        seen := {};
        windows := Closing(windows, window);
        window := None;
      }
      var product := Aoi.MappedProduct(frame);
      if product.Some? {
        var p := product.value;
        components := components[p := Lookup(components, p, {}) + Components(frame)];
        visualTags := visualTags[p := Lookup(visualTags, p, {}) + Tags(frame)];
        framesByProduct := framesByProduct[p := Lookup(framesByProduct, p, []) + [frame]];
        if previousProduct == product && i > 0 && !discontinuity {
          dwellMs := dwellMs[p := Lookup(dwellMs, p, 0.0) + (frame.capturedAt - fs[i - 1].capturedAt)];
        }
        if i > 0 && !discontinuity {
          comparisons := comparisons[p := Lookup(comparisons, p, 0) + 1];
          if previousProduct != product && p in seen {
            returnCounts := returnCounts[p := Lookup(returnCounts, p, 0) + 1];
          }
        }
        seen := seen + {p};
        if !discontinuity {
          signals := signals[p := Plus(Lookup(signals, p, NoSignals), FrameSignals(frame))];
        }
        var codes := {ObservedAttention}
          + (if Lookup(returnCounts, p, 0) > 0 then {ReturnCandidate} else {})
          + (if Lookup(signals, p, NoSignals).moved then {GazeMovement} else {})
          + (if Lookup(signals, p, NoSignals).changes != {} then {FaceActionChange} else {});
        ReturnsAdvance(fs, i, before.2, returnCounts);
        SignalsAdvance(fs, i, before.6, signals);
        CodesFrom(fs, i + 1, p, returnCounts, signals);
        OpenProduct(fs, i, closed, open);
        if window.None? || window.value.productId != p {
          windows := Closing(windows, window);
          window := Some(RawWindow(p, frame, frame, codes, Components(frame), Tags(frame)));
          NewWindowStep(fs, i, closed, open, window.value);
        } else {
          window := Some(window.value.(end := frame, codes := window.value.codes + codes,
                                       components := window.value.components + Components(frame),
                                       visualTags := window.value.visualTags + Tags(frame)));
          GrowWindowStep(fs, i, closed, open.value, window.value);
        }
      } else {
        windows := Closing(windows, window);
        window := None;
        NoProductStep(fs, i, closed, open);
        ReturnsAdvance(fs, i, before.2, returnCounts);
        SignalsAdvance(fs, i, before.6, signals);
      }
      FramesAdvance(fs, i, before.0, framesByProduct);
      DwellAdvance(fs, i, before.1, dwellMs);
      ComparisonsAdvance(fs, i, before.3, comparisons);
      PartsAdvance(fs, i, before.4, components, before.5, visualTags);
      previousProduct := product;
    }
    ghost var closed := windows;
    windows := Closing(windows, window);
    totals := Totals(windows, framesByProduct, dwellMs, returnCounts, comparisons, components, visualTags, signals, resets);
    AllDone(fs, closed, window, totals);
  }

  lemma NothingYet(fs: seq<Frame>)
    ensures WindowState(fs, 0, [], None)
    ensures FramesAre(fs, 0, map[]) && DwellIs(fs, 0, map[]) && ReturnsAre(fs, 0, map[]) && ComparisonsAre(fs, 0, map[])
    ensures PartsAre(fs, 0, map[], map[]) && SignalsAre(fs, 0, map[])
  {
  }

  lemma AllDone(fs: seq<Frame>, closed: seq<RawWindow>, window: Option<RawWindow>, totals: Totals)
    requires WindowState(fs, |fs|, closed, window) && totals.windows == Closing(closed, window)
    requires FramesAre(fs, |fs|, totals.framesByProduct) && DwellIs(fs, |fs|, totals.dwellMs)
    requires ReturnsAre(fs, |fs|, totals.returnCounts) && ComparisonsAre(fs, |fs|, totals.comparisons)
    requires PartsAre(fs, |fs|, totals.components, totals.visualTags) && SignalsAre(fs, |fs|, totals.signals)
    requires totals.resets == Resets(fs, |fs|)
    ensures TotalsAre(fs, totals)
  {
  }

  lemma CodesFrom(fs: seq<Frame>, n: nat, p: string, returnCounts: map<string, nat>, signals: map<string, Signals>)
    requires n <= |fs| && ReturnsAre(fs, n, returnCounts) && SignalsAre(fs, n, signals)
    ensures CodesAt(fs, n, p) ==
      {ObservedAttention}
      + (if Lookup(returnCounts, p, 0) > 0 then {ReturnCandidate} else {})
      + (if Lookup(signals, p, NoSignals).moved then {GazeMovement} else {})
      + (if Lookup(signals, p, NoSignals).changes != {} then {FaceActionChange} else {})
  {
  }

  lemma OpenProduct(fs: seq<Frame>, n: nat, closed: seq<RawWindow>, window: Option<RawWindow>)
    requires n <= |fs| && WindowState(fs, n, closed, window)
    ensures n == 0 ==> window.None?
    ensures n > 0 ==> Aoi.MappedProduct(fs[n - 1]) == if window.Some? then Some(window.value.productId) else None
  {
    hide Aoi.MappedProduct, RunsOf, WindowOf;
  }
}
