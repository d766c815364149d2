/**
 Source-AOI evidence (`source_aoi.build_source_visual_evidence`): the loop over hits, the feature
 scores, and the conservation of frames between them.
 */
module SourceEvidence {
  import opened Common
  import opened Observations
  import opened RunDecomposition
  import opened SourceAoi
  import opened Sorting

  datatype SourceSummary = SourceSummary(sourceId: string, hitCount: nat, attentionMs: real, returnCount: nat,
                                         frameIds: seq<string>, features: Features)

  datatype FeatureScore = FeatureScore(value: string, score: nat, attentionMs: real, sourceIds: set<string>)

  datatype VisualEvidence = VisualEvidence(
    totalHits: nat, ambiguous: nat, sources: seq<SourceSummary>,
    colorPrimary: seq<FeatureScore>, colorFamily: seq<FeatureScore>, silhouette: seq<FeatureScore>,
    categoryType: seq<FeatureScore>, patterns: seq<FeatureScore>, accessories: seq<FeatureScore>)
  {
    /** The list bounds of `SourceVisualEvidenceV1`, of which only the first can be exceeded. */
    predicate FitsLimits() {
      |colorPrimary| <= 32 && |colorFamily| <= 16 && |silhouette| <= 16 && |categoryType| <= 16
      && |patterns| <= 32 && |accessories| <= 32
    }

    function GroundedFrameIds(): set<string> {
      set s, id | s in sources && id in s.frameIds :: id
    }
  }

  // ----- Labels and breaks -----

  predicate SourceBreak(fs: seq<Frame>, i: nat)
    requires i < |fs|
  {
    || i == 0
    || fs[i].epoch != fs[i - 1].epoch
    || fs[i].videoTime < fs[i - 1].videoTime
    || fs[i].sequence <= fs[i - 1].sequence
    || fs[i].capturedAt - fs[i - 1].capturedAt <= 0.0
    || fs[i].capturedAt - fs[i - 1].capturedAt > 1000.0
  }

  function HitsFor(cache: map<Key, seq<Hit>>, f: Frame): seq<Hit> {
    if f.FrameKey() in cache then cache[f.FrameKey()] else []
  }

  /** The source AOI of a frame that hits exactly one. */
  function SingleSource(cache: map<Key, seq<Hit>>, f: Frame): Option<string> {
    var hits := HitsFor(cache, f);
    if |hits| == 1 then Some(hits[0].sourceId) else None
  }

  function TrackOf(cache: map<Key, seq<Hit>>, fs: seq<Frame>): (t: Track)
    ensures t.Valid() && |t.labels| == |fs|
    ensures forall i :: 0 <= i < |fs| ==> t.labels[i] == SingleSource(cache, fs[i])
    ensures forall i :: 0 <= i < |fs| ==> t.breaks[i] == SourceBreak(fs, i)
    ensures forall i :: 0 <= i < |fs| ==> t.times[i] == fs[i].capturedAt
  {
    Track(seq(|fs|, i requires 0 <= i < |fs| => SingleSource(cache, fs[i])),
          seq(|fs|, i requires 0 <= i < |fs| => SourceBreak(fs, i)),
          seq(|fs|, i requires 0 <= i < |fs| => fs[i].capturedAt))
  }

  function AmbiguousCount(cache: map<Key, seq<Hit>>, fs: seq<Frame>, n: nat): nat
    requires n <= |fs|
  {
    if n == 0 then 0
    else AmbiguousCount(cache, fs, n - 1) + if |HitsFor(cache, fs[n - 1])| > 1 then 1 else 0
  }

  function UnhitCount(cache: map<Key, seq<Hit>>, fs: seq<Frame>, n: nat): nat
    requires n <= |fs|
  {
    if n == 0 then 0
    else UnhitCount(cache, fs, n - 1) + if HitsFor(cache, fs[n - 1]) == [] then 1 else 0
  }

  function SingleCount(cache: map<Key, seq<Hit>>, fs: seq<Frame>, n: nat): nat
    requires n <= |fs|
  {
    if n == 0 then 0
    else SingleCount(cache, fs, n - 1) + if SingleSource(cache, fs[n - 1]).Some? then 1 else 0
  }

  /** The ids of the frames that hit `source` alone, in order. */
  function FrameIdsOf(cache: map<Key, seq<Hit>>, fs: seq<Frame>, n: nat, source: string): seq<string>
    requires n <= |fs|
  {
    if n == 0 then []
    else
      FrameIdsOf(cache, fs, n - 1, source)
      + if SingleSource(cache, fs[n - 1]) == Some(source) then [fs[n - 1].frameId] else []
  }

  /** The sources hit alone, frame by frame. */
  function SourcesHit(cache: map<Key, seq<Hit>>, fs: seq<Frame>, n: nat): seq<string>
    requires n <= |fs|
  {
    if n == 0 then []
    else
      var s := SingleSource(cache, fs[n - 1]);
      if s.Some? then SourcesHit(cache, fs, n - 1) + [s.value] else SourcesHit(cache, fs, n - 1)
  }

  // ----- The loop -----

  datatype Mutable = Mutable(definition: Definition, frameIds: seq<string>, attentionMs: real, returnCount: nat)

  predicate Has(sources: seq<Definition>, id: string) {
    exists d :: d in sources && d.sourceId == id
  }

  function DefinitionOf(sources: seq<Definition>, id: string): (d: Definition)
    requires Has(sources, id)
    ensures d in sources && d.sourceId == id
  {
    if sources[0].sourceId == id then sources[0] else DefinitionOf(sources[1..], id)
  }

  /** Hits name source AOIs of the metadata, as hit resolution guarantees. */
  ghost predicate HitsKnown(cache: map<Key, seq<Hit>>, sources: seq<Definition>) {
    forall k :: k in cache && |cache[k]| == 1 ==> Has(sources, cache[k][0].sourceId)
  }

  /** A summary holds what the first `n` frames say about its source. */
  ghost predicate SummaryIs(cache: map<Key, seq<Hit>>, fs: seq<Frame>, n: nat, sources: seq<Definition>, s: string,
                            x: Mutable)
    requires n <= |fs|
  {
    && x.definition in sources && x.definition.sourceId == s
    && x.frameIds == FrameIdsOf(cache, fs, n, s)
    && x.returnCount == ReturnCount(TrackOf(cache, fs), n, s)
    && x.attentionMs == DwellUpTo(TrackOf(cache, fs), n, s)
  }

  ghost predicate SummariesAre(cache: map<Key, seq<Hit>>, fs: seq<Frame>, n: nat, sources: seq<Definition>,
                               m: map<string, Mutable>)
    requires n <= |fs|
  {
    && (forall s :: s in m <==> FrameIdsOf(cache, fs, n, s) != [])
    && (forall s :: s in m ==> SummaryIs(cache, fs, n, sources, s, m[s]))
  }

  lemma {:induction false} AbsentSource(cache: map<Key, seq<Hit>>, fs: seq<Frame>, n: nat, s: string)
    requires n <= |fs| && FrameIdsOf(cache, fs, n, s) == []
    ensures forall i :: 0 <= i < n ==> TrackOf(cache, fs).labels[i] != Some(s)
  {
    hide SingleSource, SourceBreak;
    if n > 0 {
      AbsentSource(cache, fs, n - 1, s);
    }
  }

  /** The summary of a source before its first frame. */
  lemma FreshSummary(cache: map<Key, seq<Hit>>, fs: seq<Frame>, n: nat, sources: seq<Definition>, d: Definition)
    requires n <= |fs| && FrameIdsOf(cache, fs, n, d.sourceId) == [] && d in sources
    ensures SummaryIs(cache, fs, n, sources, d.sourceId, Mutable(d, [], 0.0, 0))
  {
    AbsentSource(cache, fs, n, d.sourceId);
    AbsentName(TrackOf(cache, fs), n, d.sourceId);
  }

  /** A frame of another source, or of none, leaves a summary alone. */
  lemma OtherSummary(cache: map<Key, seq<Hit>>, fs: seq<Frame>, n: nat, sources: seq<Definition>, s: string, x: Mutable)
    requires n < |fs| && SummaryIs(cache, fs, n, sources, s, x) && SingleSource(cache, fs[n]) != Some(s)
    ensures SummaryIs(cache, fs, n + 1, sources, s, x)
  {
    hide SingleSource, SourceBreak, DwellUpTo, Seen;
    DwellUpToStep(TrackOf(cache, fs), n, s);
    assert x.frameIds + [] == x.frameIds;
  }

  /** A frame of its own source extends a summary. */
  lemma OwnSummary(cache: map<Key, seq<Hit>>, fs: seq<Frame>, n: nat, sources: seq<Definition>, s: string, x: Mutable,
                   y: Mutable)
    requires n < |fs| && SummaryIs(cache, fs, n, sources, s, x) && SingleSource(cache, fs[n]) == Some(s)
    requires y.definition == x.definition && y.frameIds == x.frameIds + [fs[n].frameId]
    requires var t := TrackOf(cache, fs);
      && y.attentionMs == x.attentionMs + (if Continues(t, n) then fs[n].capturedAt - fs[n - 1].capturedAt else 0.0)
      && y.returnCount == x.returnCount + if Returns(t, n, s) then 1 else 0
    ensures SummaryIs(cache, fs, n + 1, sources, s, y)
  {
    hide SingleSource, SourceBreak, DwellUpTo, Returns;
    DwellUpToStep(TrackOf(cache, fs), n, s);
  }

  lemma NoneAdvance(cache: map<Key, seq<Hit>>, fs: seq<Frame>, n: nat, sources: seq<Definition>, m: map<string, Mutable>)
    requires n < |fs| && SummariesAre(cache, fs, n, sources, m) && SingleSource(cache, fs[n]).None?
    ensures SummariesAre(cache, fs, n + 1, sources, m)
  {
    hide SingleSource, SummaryIs;
    forall s ensures FrameIdsOf(cache, fs, n + 1, s) == FrameIdsOf(cache, fs, n, s) {
      assert FrameIdsOf(cache, fs, n, s) + [] == FrameIdsOf(cache, fs, n, s);
    }
    forall s | s in m ensures SummaryIs(cache, fs, n + 1, sources, s, m[s]) {
      OtherSummary(cache, fs, n, sources, s, m[s]);
    }
  }

  lemma OneAdvance(cache: map<Key, seq<Hit>>, fs: seq<Frame>, n: nat, sources: seq<Definition>, m: map<string, Mutable>,
                   id: string, y: Mutable)
    requires n < |fs| && SummariesAre(cache, fs, n, sources, m) && SingleSource(cache, fs[n]) == Some(id)
    requires SummaryIs(cache, fs, n + 1, sources, id, y)
    ensures SummariesAre(cache, fs, n + 1, sources, m[id := y])
  {
    hide SingleSource, SummaryIs;
    var next := m[id := y];
    forall s ensures s in next <==> FrameIdsOf(cache, fs, n + 1, s) != [] {
      assert s != id ==> FrameIdsOf(cache, fs, n, s) + [] == FrameIdsOf(cache, fs, n, s);
    }
    forall s | s in next ensures SummaryIs(cache, fs, n + 1, sources, s, next[s]) {
      if s != id {
        OtherSummary(cache, fs, n, sources, s, m[s]);
      }
    }
  }

  lemma CurrentSummary(cache: map<Key, seq<Hit>>, fs: seq<Frame>, n: nat, sources: seq<Definition>,
                       m: map<string, Mutable>, id: string)
    requires n <= |fs| && SummariesAre(cache, fs, n, sources, m)
    requires Has(sources, id)
    ensures SummaryIs(cache, fs, n, sources, id,
                      if id in m then m[id] else Mutable(DefinitionOf(sources, id), [], 0.0, 0))
  {
    hide SummaryIs;
    if id !in m {
      FreshSummary(cache, fs, n, sources, DefinitionOf(sources, id));
    }
  }

  /** What one more frame does to every running value of the loop. */
  lemma FrameStep(cache: map<Key, seq<Hit>>, fs: seq<Frame>, i: nat)
    requires i < |fs|
    ensures var t, id := TrackOf(cache, fs), SingleSource(cache, fs[i]);
      && AmbiguousCount(cache, fs, i + 1) ==
         AmbiguousCount(cache, fs, i) + (if |HitsFor(cache, fs[i])| > 1 then 1 else 0)
      && Seen(t, i + 1) == (if SourceBreak(fs, i) then {} else Seen(t, i)) + (if id.Some? then {id.value} else {})
      && t.labels[i] == id && (SourceBreak(fs, i) <== i == 0)
      && SourcesHit(cache, fs, i + 1) ==
         (if id.Some? then SourcesHit(cache, fs, i) + [id.value] else SourcesHit(cache, fs, i))
      && (id.Some? ==>
        && (Continues(t, i) <==> !SourceBreak(fs, i) && t.labels[i - 1] == id)
        && (Returns(t, i, id.value) <==> !SourceBreak(fs, i) && t.labels[i - 1] != id && id.value in Seen(t, i)))
  {
    hide SingleSource, HitsFor;
  }

  lemma KnownSource(cache: map<Key, seq<Hit>>, f: Frame, sources: seq<Definition>)
    requires HitsKnown(cache, sources) && |HitsFor(cache, f)| == 1
    ensures Has(sources, HitsFor(cache, f)[0].sourceId)
  {
  }

  /** The main loop of `build_source_visual_evidence`. */
  method Collect(ordered: seq<Frame>, cache: map<Key, seq<Hit>>, sources: seq<Definition>)
    returns (summaries: map<string, Mutable>, order: seq<string>, ambiguous: nat)
    requires HitsKnown(cache, sources)
    ensures SummariesAre(cache, ordered, |ordered|, sources, summaries)
    ensures order == Dedup(SourcesHit(cache, ordered, |ordered|)) && forall s :: s in order <==> s in summaries
    ensures ambiguous == AmbiguousCount(cache, ordered, |ordered|)
  {
    hide SummariesAre, SummaryIs, TrackOf, SourceBreak, HitsFor, HitsKnown, Dedup, SourcesHit, AmbiguousCount, Seen,
      Continues, Returns;
    summaries, order, ambiguous := map[], [], 0;
    var previousSource: Option<string> := None;
    var seen: set<string> := {};
    ghost var t := TrackOf(cache, ordered);
    Nothing(cache, ordered, sources);
    for i := 0 to |ordered|
      invariant SummariesAre(cache, ordered, i, sources, summaries)
      invariant order == Dedup(SourcesHit(cache, ordered, i)) && forall s :: s in order <==> s in summaries
      invariant ambiguous == AmbiguousCount(cache, ordered, i)
      invariant seen == Seen(t, i)
      invariant previousSource == if i == 0 then None else t.labels[i - 1]
    {
      FrameStep(cache, ordered, i);
      var frame := ordered[i];
      var hits := HitsFor(cache, frame);
      var discontinuity := SourceBreak(ordered, i);
      if discontinuity {
        previousSource, seen := None, {};
      }
      if |hits| > 1 {
        ambiguous := ambiguous + 1;
        previousSource := None;
        NoneAdvance(cache, ordered, i, sources, summaries);
        continue;
      }
      if |hits| == 1 {
        var id := hits[0].sourceId;
        KnownSource(cache, frame, sources);
        CurrentSummary(cache, ordered, i, sources, summaries, id);
        DedupAppend(SourcesHit(cache, ordered, i), id);
        if id !in summaries {
          order := order + [id];
        }
        var summary := if id in summaries then summaries[id] else Mutable(DefinitionOf(sources, id), [], 0.0, 0);
        ghost var before := summary;
        summary := summary.(frameIds := summary.frameIds + [frame.frameId]);
        if previousSource == Some(id) && i > 0 && !discontinuity {
          summary := summary.(attentionMs := summary.attentionMs + (frame.capturedAt - ordered[i - 1].capturedAt));
        } else if id in seen {
          summary := summary.(returnCount := summary.returnCount + 1);
        }
        OwnSummary(cache, ordered, i, sources, id, before, summary);
        OneAdvance(cache, ordered, i, sources, summaries, id, summary);
        summaries := summaries[id := summary];
        seen := seen + {id};
        previousSource := Some(id);
      } else {
        previousSource := None;
        NoneAdvance(cache, ordered, i, sources, summaries);
      }
    }
  }

  lemma Nothing(cache: map<Key, seq<Hit>>, fs: seq<Frame>, sources: seq<Definition>)
    ensures SummariesAre(cache, fs, 0, sources, map[])
    ensures Dedup(SourcesHit(cache, fs, 0)) == [] && AmbiguousCount(cache, fs, 0) == 0
    ensures Seen(TrackOf(cache, fs), 0) == {}
  {
  }

  // ----- Feature scores -----

  datatype Weighted = Weighted(value: string, summary: SourceSummary)

  function ScoreOf(ps: seq<Weighted>, value: string): nat {
    if ps == [] then 0
    else ScoreOf(ps[..|ps| - 1], value) + if ps[|ps| - 1].value == value then ps[|ps| - 1].summary.hitCount else 0
  }

  function AttentionOf(ps: seq<Weighted>, value: string): real {
    if ps == [] then 0.0
    else
      AttentionOf(ps[..|ps| - 1], value)
      + if ps[|ps| - 1].value == value then ps[|ps| - 1].summary.attentionMs else 0.0
  }

  function SourcesOf(ps: seq<Weighted>, value: string): set<string> {
    set p | p in ps && p.value == value :: p.summary.sourceId
  }

  function Values(ps: seq<Weighted>): seq<string> {
    seq(|ps|, i requires 0 <= i < |ps| => ps[i].value)
  }

  /** Highest score first, then by value. */
  predicate ScoreLess(a: FeatureScore, b: FeatureScore) {
    a.score > b.score || (a.score == b.score && StringLess(a.value, b.value))
  }

  function ScoresFor(ps: seq<Weighted>, values: seq<string>): (scores: seq<FeatureScore>)
    ensures |scores| == |values|
  {
    if values == [] then []
    else
      var v := values[|values| - 1];
      ScoresFor(ps, values[..|values| - 1]) + [FeatureScore(v, ScoreOf(ps, v), AttentionOf(ps, v), SourcesOf(ps, v))]
  }

  /** `feature_scores` */
  function FeatureScores(ps: seq<Weighted>): seq<FeatureScore> {
    Sort(ScoreLess, ScoresFor(ps, Dedup(Values(ps))))
  }

  function Total(ps: seq<Weighted>): nat {
    if ps == [] then 0 else Total(ps[..|ps| - 1]) + ps[|ps| - 1].summary.hitCount
  }

  function SumScores(scores: seq<FeatureScore>): nat {
    if scores == [] then 0 else scores[0].score + SumScores(scores[1..])
  }

  lemma {:induction false} SumScoresConcat(a: seq<FeatureScore>, b: seq<FeatureScore>)
    ensures SumScores(a + b) == SumScores(a) + SumScores(b)
  {
    if a == [] {
      assert a + b == b;
    } else {
      assert (a + b)[1..] == a[1..] + b;
      SumScoresConcat(a[1..], b);
    }
  }

  lemma {:induction false} SumScoresInsert(x: FeatureScore, xs: seq<FeatureScore>)
    ensures SumScores(Insert(ScoreLess, x, xs)) == x.score + SumScores(xs)
  {
    if xs != [] && ScoreLess(xs[0], x) {
      SumScoresInsert(x, xs[1..]);
      assert ([xs[0]] + Insert(ScoreLess, x, xs[1..]))[1..] == Insert(ScoreLess, x, xs[1..]);
    } else {
      assert ([x] + xs)[1..] == xs;
    }
  }

  lemma {:induction false} SumScoresSort(xs: seq<FeatureScore>)
    ensures SumScores(Sort(ScoreLess, xs)) == SumScores(xs)
  {
    if xs != [] {
      SumScoresSort(xs[1..]);
      SumScoresInsert(xs[0], Sort(ScoreLess, xs[1..]));
    }
  }

  /** Appending one weighted value adds its weight to that value's score and to no other. */
  lemma {:induction false} ScoresForStep(ps: seq<Weighted>, p: Weighted, values: seq<string>)
    requires forall i, j :: 0 <= i < j < |values| ==> values[i] != values[j]
    ensures SumScores(ScoresFor(ps + [p], values)) ==
      SumScores(ScoresFor(ps, values)) + if p.value in values then p.summary.hitCount else 0
  {
    if values != [] {
      var init, v := values[..|values| - 1], values[|values| - 1];
      assert values == init + [v];
      ScoresForStep(ps, p, init);
      assert (ps + [p])[..|ps|] == ps;
      hide ScoreOf, AttentionOf, SourcesOf;
      SumScoresConcat(ScoresFor(ps + [p], init), [ScoresFor(ps + [p], values)[|init|]]);
      SumScoresConcat(ScoresFor(ps, init), [ScoresFor(ps, values)[|init|]]);
      ScoreStep(ps, p, v);
    }
  }

  lemma ScoreStep(ps: seq<Weighted>, p: Weighted, v: string)
    ensures ScoreOf(ps + [p], v) == ScoreOf(ps, v) + if p.value == v then p.summary.hitCount else 0
  {
    assert (ps + [p])[..|ps|] == ps;
  }

  lemma {:induction false} AbsentValue(ps: seq<Weighted>, v: string)
    requires v !in Values(ps)
    ensures ScoreOf(ps, v) == 0
  {
    if ps != [] {
      assert Values(ps)[|ps| - 1] == ps[|ps| - 1].value;
      forall x | x in Values(ps[..|ps| - 1]) ensures x in Values(ps) {
        var i :| 0 <= i < |ps| - 1 && ps[i].value == x;
        assert Values(ps)[i] == x;
      }
      AbsentValue(ps[..|ps| - 1], v);
    }
  }

  lemma ScoresExtended(ps: seq<Weighted>, values: seq<string>, v: string)
    ensures ScoresFor(ps, values + [v]) == ScoresFor(ps, values)
      + [FeatureScore(v, ScoreOf(ps, v), AttentionOf(ps, v), SourcesOf(ps, v))]
  {
    assert (values + [v])[..|values|] == values;
  }

  lemma NewValueScore(ps: seq<Weighted>, values: seq<string>, v: string)
    requires v !in Values(ps)
    ensures SumScores(ScoresFor(ps, values + [v])) == SumScores(ScoresFor(ps, values))
  {
    hide ScoresFor, ScoreOf, AttentionOf, SourcesOf, Values;
    AbsentValue(ps, v);
    ScoresExtended(ps, values, v);
    var last := [FeatureScore(v, ScoreOf(ps, v), AttentionOf(ps, v), SourcesOf(ps, v))];
    SumScoresConcat(ScoresFor(ps, values), last);
    assert last[1..] == [];
  }

  lemma ValuesExtended(ps: seq<Weighted>, p: Weighted)
    ensures Values(ps + [p]) == Values(ps) + [p.value]
    ensures Total(ps + [p]) == Total(ps) + p.summary.hitCount
  {
    assert (ps + [p])[..|ps|] == ps;
  }

  lemma {:induction false} ScoresCoverAll(ps: seq<Weighted>)
    ensures SumScores(ScoresFor(ps, Dedup(Values(ps)))) == Total(ps)
  {
    if ps == [] {
    } else {
      var init, p := ps[..|ps| - 1], ps[|ps| - 1];
      assert ps == init + [p];
      ScoresCoverAll(init);
      CoverStep(init, p);
    }
  }

  lemma CoverStep(init: seq<Weighted>, p: Weighted)
    requires SumScores(ScoresFor(init, Dedup(Values(init)))) == Total(init)
    ensures SumScores(ScoresFor(init + [p], Dedup(Values(init + [p])))) == Total(init + [p])
  {
    hide Dedup, Values, Total, SumScores, ScoresFor;
    ValuesExtended(init, p);
    DedupAppend(Values(init), p.value);
    ScoresForStep(init, p, Dedup(Values(init + [p])));
    if p.value !in Values(init) {
      NewValueScore(init, Dedup(Values(init)), p.value);
    }
  }

  /** Scores of a feature add up to the hits that were weighted in. */
  lemma FeatureScoresConserve(ps: seq<Weighted>)
    ensures SumScores(FeatureScores(ps)) == Total(ps)
  {
    ScoresCoverAll(ps);
    SumScoresSort(ScoresFor(ps, Dedup(Values(ps))));
  }

  /** The accumulating loop inside `feature_scores`. */
  method ScoreFeature(ps: seq<Weighted>) returns (scores: seq<FeatureScore>)
    ensures scores == FeatureScores(ps)
  {
    hide Dedup, Values, ScoreOf, AttentionOf, SourcesOf, ScoresFor;
    var order: seq<string> := [];
    var scoreBy: map<string, nat> := map[];
    var attentionBy: map<string, real> := map[];
    var sourcesBy: map<string, set<string>> := map[];
    NoneWeighted();
    for i := 0 to |ps|
      invariant order == Dedup(Values(ps[..i]))
      invariant forall v :: Lookup(scoreBy, v, 0) == ScoreOf(ps[..i], v)
      invariant forall v :: Lookup(attentionBy, v, 0.0) == AttentionOf(ps[..i], v)
      invariant forall v :: Lookup(sourcesBy, v, {}) == SourcesOf(ps[..i], v)
      invariant forall v :: v in order <==> v in scoreBy
    {
      assert ps[..i + 1] == ps[..i] + [ps[i]];
      var v, summary := ps[i].value, ps[i].summary;
      forall u ensures Extends(ps[..i], ps[i], u) {
        WeightStep(ps[..i], ps[i], u);
      }
      ValuesExtended(ps[..i], ps[i]);
      DedupAppend(Values(ps[..i]), v);
      if v !in scoreBy {
        order := order + [v];
      }
      scoreBy := scoreBy[v := Lookup(scoreBy, v, 0) + summary.hitCount];
      attentionBy := attentionBy[v := Lookup(attentionBy, v, 0.0) + summary.attentionMs];
      sourcesBy := sourcesBy[v := Lookup(sourcesBy, v, {}) + {summary.sourceId}];
      forall u
        ensures Lookup(scoreBy, u, 0) == ScoreOf(ps[..i + 1], u)
        ensures Lookup(attentionBy, u, 0.0) == AttentionOf(ps[..i + 1], u)
        ensures Lookup(sourcesBy, u, {}) == SourcesOf(ps[..i + 1], u)
      {
        assert Extends(ps[..i], ps[i], u);
      }
    }
    assert ps[..|ps|] == ps;
    scores := [];
    NoScores(ps);
    for k := 0 to |order|
      invariant scores == ScoresFor(ps, order[..k])
    {
      var v := order[k];
      scores := scores + [FeatureScore(v, Lookup(scoreBy, v, 0), Lookup(attentionBy, v, 0.0), Lookup(sourcesBy, v, {}))];
      ScoresExtended(ps, order[..k], v);
      assert order[..k + 1] == order[..k] + [v];
    }
    assert order[..|order|] == order;
    scores := Sort(ScoreLess, scores);
  }

  ghost predicate Extends(ps: seq<Weighted>, p: Weighted, v: string) {
    var own := p.value == v;
    && ScoreOf(ps + [p], v) == ScoreOf(ps, v) + (if own then p.summary.hitCount else 0)
    && AttentionOf(ps + [p], v) == AttentionOf(ps, v) + (if own then p.summary.attentionMs else 0.0)
    && SourcesOf(ps + [p], v) == SourcesOf(ps, v) + (if own then {p.summary.sourceId} else {})
  }

  lemma WeightStep(ps: seq<Weighted>, p: Weighted, v: string)
    ensures Extends(ps, p, v)
  {
    assert (ps + [p])[..|ps|] == ps;
  }

  lemma NoneWeighted()
    ensures Dedup(Values([])) == []
    ensures forall v :: ScoreOf([], v) == 0 && AttentionOf([], v) == 0.0 && SourcesOf([], v) == {}
  {
  }

  lemma NoScores(ps: seq<Weighted>)
    ensures ScoresFor(ps, []) == []
  {
  }

  // ----- The evidence -----

  function SummaryOf(cache: map<Key, seq<Hit>>, fs: seq<Frame>, sources: seq<Definition>, id: string): SourceSummary
    requires Has(sources, id)
  {
    var t, n := TrackOf(cache, fs), |fs|;
    SourceSummary(id, |FrameIdsOf(cache, fs, n, id)|, DwellUpTo(t, n, id), ReturnCount(t, n, id),
                  FrameIdsOf(cache, fs, n, id), DefinitionOf(sources, id).features)
  }

  ghost predicate Known(sources: seq<Definition>, ids: seq<string>) {
    forall id :: id in ids ==> Has(sources, id)
  }

  function SummariesFor(cache: map<Key, seq<Hit>>, fs: seq<Frame>, sources: seq<Definition>, ids: seq<string>)
    : (ss: seq<SourceSummary>)
    requires Known(sources, ids)
    ensures |ss| == |ids| && forall i :: 0 <= i < |ids| ==>
      Has(sources, ids[i]) && ss[i] == SummaryOf(cache, fs, sources, ids[i])
  {
    if ids == [] then []
    else
      var id := ids[|ids| - 1];
      assert id in ids;
      SummariesFor(cache, fs, sources, ids[..|ids| - 1]) + [SummaryOf(cache, fs, sources, id)]
  }

  function SumHits(ss: seq<SourceSummary>): nat {
    if ss == [] then 0 else SumHits(ss[..|ss| - 1]) + ss[|ss| - 1].hitCount
  }

  function Pairs(values: seq<string>, s: SourceSummary): seq<Weighted> {
    seq(|values|, i requires 0 <= i < |values| => Weighted(values[i], s))
  }

  /** `(value, item) for item in source_summaries for value in ...` */
  function Weights(ss: seq<SourceSummary>, select: Features -> seq<string>): seq<Weighted> {
    if ss == [] then []
    else Weights(ss[..|ss| - 1], select) + Pairs(select(ss[|ss| - 1].features), ss[|ss| - 1])
  }

  /** The six features, each as the list of its values. */
  function ColorPrimary(f: Features): seq<string> { [f.colorPrimary] }
  function ColorFamily(f: Features): seq<string> { [f.colorFamily] }
  function Silhouette(f: Features): seq<string> { [f.silhouette] }
  function CategoryType(f: Features): seq<string> { [f.categoryType] }
  function Patterns(f: Features): seq<string> { f.patterns }
  function Accessories(f: Features): seq<string> { f.accessories }

  function EvidenceFrom(ss: seq<SourceSummary>, ambiguous: nat): VisualEvidence {
    VisualEvidence(SumHits(ss), ambiguous, ss,
                   FeatureScores(Weights(ss, ColorPrimary)), FeatureScores(Weights(ss, ColorFamily)),
                   FeatureScores(Weights(ss, Silhouette)), FeatureScores(Weights(ss, CategoryType)),
                   FeatureScores(Weights(ss, Patterns)), FeatureScores(Weights(ss, Accessories)))
  }

  lemma {:induction false} HitSourcesKnown(cache: map<Key, seq<Hit>>, fs: seq<Frame>, n: nat, sources: seq<Definition>)
    requires n <= |fs| && HitsKnown(cache, sources)
    ensures Known(sources, SourcesHit(cache, fs, n))
  {
    if n > 0 {
      HitSourcesKnown(cache, fs, n - 1, sources);
      if |HitsFor(cache, fs[n - 1])| == 1 {
        KnownSource(cache, fs[n - 1], sources);
      }
    }
  }

  /** The sources hit alone by some frame, as `sorted(summaries.items())` lists them. */
  function HitIds(cache: map<Key, seq<Hit>>, fs: seq<Frame>, sources: seq<Definition>): (ids: seq<string>)
    requires HitsKnown(cache, sources)
    ensures Known(sources, ids)
    ensures forall id :: id in ids <==> id in SourcesHit(cache, fs, |fs|)
    ensures Distinct(ids)
  {
    HitSourcesKnown(cache, fs, |fs|, sources);
    SortedSetMembers(SourcesHit(cache, fs, |fs|));
    SortedSet(SourcesHit(cache, fs, |fs|))
  }

  /** What `build_source_visual_evidence` returns; `Err` where the data model refuses its lists. */
  function Built(observations: seq<Frame>, cache: map<Key, seq<Hit>>, sources: seq<Definition>)
    : Result<Option<VisualEvidence>, ()>
    requires HitsKnown(cache, sources)
  {
    var fs := Ordered(observations);
    var ids := HitIds(cache, fs, sources);
    if ids == [] then Ok(None)
    else
      var evidence := EvidenceFrom(SummariesFor(cache, fs, sources, ids), AmbiguousCount(cache, fs, |fs|));
      if evidence.FitsLimits() then Ok(Some(evidence)) else Err(())
  }

  lemma CollectedSummary(cache: map<Key, seq<Hit>>, fs: seq<Frame>, sources: seq<Definition>, s: string, x: Mutable)
    requires SummaryIs(cache, fs, |fs|, sources, s, x)
    requires forall d, e :: d in sources && e in sources && d.sourceId == e.sourceId ==> d == e
    ensures SummaryOf(cache, fs, sources, s) ==
      SourceSummary(s, |x.frameIds|, x.attentionMs, x.returnCount, x.frameIds, x.definition.features)
  {
    hide FrameIdsOf, TrackOf, ReturnCount, DwellUpTo;
  }

  lemma SummaryAt(cache: map<Key, seq<Hit>>, fs: seq<Frame>, sources: seq<Definition>, m: map<string, Mutable>, s: string)
    requires SummariesAre(cache, fs, |fs|, sources, m) && s in m
    ensures SummaryIs(cache, fs, |fs|, sources, s, m[s])
  {
    hide SummaryIs;
  }

  lemma FittingEvidence(observations: seq<Frame>, cache: map<Key, seq<Hit>>, sources: seq<Definition>,
                        e: VisualEvidence)
    requires HitsKnown(cache, sources)
    requires var fs := Ordered(observations);
      && HitIds(cache, fs, sources) != []
      && e == EvidenceFrom(SummariesFor(cache, fs, sources, HitIds(cache, fs, sources)), AmbiguousCount(cache, fs, |fs|))
    ensures Built(observations, cache, sources) == if e.FitsLimits() then Ok(Some(e)) else Err(())
  {
    hide EvidenceFrom, SummariesFor, HitIds, HitsKnown, VisualEvidence.FitsLimits;
  }

  method ListSummaries(cache: map<Key, seq<Hit>>, fs: seq<Frame>, sources: seq<Definition>, ids: seq<string>,
                       summaries: map<string, Mutable>)
    returns (list: seq<SourceSummary>)
    requires SummariesAre(cache, fs, |fs|, sources, summaries)
    requires Known(sources, ids) && forall id :: id in ids ==> id in summaries
    requires forall d, e :: d in sources && e in sources && d.sourceId == e.sourceId ==> d == e
    ensures list == SummariesFor(cache, fs, sources, ids)
  {
    hide SummariesAre, SummaryIs, SummaryOf;
    list := [];
    for k := 0 to |ids|
      invariant list == SummariesFor(cache, fs, sources, ids)[..k]
    {
      assert ids[k] in ids;
      var x := summaries[ids[k]];
      SummaryAt(cache, fs, sources, summaries, ids[k]);
      CollectedSummary(cache, fs, sources, ids[k], x);
      list := list + [SourceSummary(ids[k], |x.frameIds|, x.attentionMs, x.returnCount, x.frameIds, x.definition.features)];
    }
  }

  /** `build_source_visual_evidence` */
  method BuildSourceVisualEvidence(observations: seq<Frame>, cache: map<Key, seq<Hit>>, sources: seq<Definition>)
    returns (r: Result<Option<VisualEvidence>, ()>)
    requires HitsKnown(cache, sources)
    requires forall d, e :: d in sources && e in sources && d.sourceId == e.sourceId ==> d == e
    ensures r == Built(observations, cache, sources)
  {
    hide SummariesAre, SummaryIs, SummaryOf, Dedup, SourcesHit, AmbiguousCount, FeatureScores, Weights, SumHits,
      HitsKnown, SummariesFor, VisualEvidence.FitsLimits, Known, Has;
    var ordered := Ordered(observations);
    var summaries, order, ambiguous := Collect(ordered, cache, sources);
    var ids := Sort(StringLess, order);
    SortMembers(StringLess, order);
    assert ids == HitIds(cache, ordered, sources);
    if ids == [] {
      return Ok(None);
    }
    var list := ListSummaries(cache, ordered, sources, ids, summaries);
    var colorPrimary := ScoreFeature(Weights(list, ColorPrimary));
    var colorFamily := ScoreFeature(Weights(list, ColorFamily));
    var silhouette := ScoreFeature(Weights(list, Silhouette));
    var categoryType := ScoreFeature(Weights(list, CategoryType));
    var patterns := ScoreFeature(Weights(list, Patterns));
    var accessories := ScoreFeature(Weights(list, Accessories));
    var evidence := VisualEvidence(SumHits(list), ambiguous, list, colorPrimary, colorFamily, silhouette, categoryType,
                                   patterns, accessories);
    FittingEvidence(observations, cache, sources, evidence);
    r := if evidence.FitsLimits() then Ok(Some(evidence)) else Err(());
  }

  // ----- Conservation -----

  /** Every frame is a single hit, an ambiguous one, or no hit. */
  lemma {:induction false} FramesConserved(cache: map<Key, seq<Hit>>, fs: seq<Frame>, n: nat)
    requires n <= |fs|
    ensures SingleCount(cache, fs, n) + AmbiguousCount(cache, fs, n) + UnhitCount(cache, fs, n) == n
  {
    if n > 0 {
      FramesConserved(cache, fs, n - 1);
    }
  }

  function SumFrameIds(cache: map<Key, seq<Hit>>, fs: seq<Frame>, n: nat, ids: seq<string>): nat
    requires n <= |fs|
  {
    if ids == [] then 0
    else SumFrameIds(cache, fs, n, ids[..|ids| - 1]) + |FrameIdsOf(cache, fs, n, ids[|ids| - 1])|
  }

  lemma {:induction false} SumFrameIdsStep(cache: map<Key, seq<Hit>>, fs: seq<Frame>, n: nat, ids: seq<string>)
    requires n < |fs| && Distinct(ids)
    ensures SumFrameIds(cache, fs, n + 1, ids) == SumFrameIds(cache, fs, n, ids)
      + if SingleSource(cache, fs[n]).Some? && SingleSource(cache, fs[n]).value in ids then 1 else 0
  {
    hide SingleSource;
    if ids != [] {
      var init := ids[..|ids| - 1];
      assert ids == init + [ids[|ids| - 1]];
      SumFrameIdsStep(cache, fs, n, init);
    }
  }

  lemma {:induction false} NoFrameIds(cache: map<Key, seq<Hit>>, fs: seq<Frame>, ids: seq<string>)
    ensures SumFrameIds(cache, fs, 0, ids) == 0
  {
    if ids != [] {
      NoFrameIds(cache, fs, ids[..|ids| - 1]);
    }
  }

  lemma {:induction false} SourceAppears(cache: map<Key, seq<Hit>>, fs: seq<Frame>, n: nat, i: nat)
    requires i < n <= |fs|
    ensures SingleSource(cache, fs[i]).Some? ==> SingleSource(cache, fs[i]).value in SourcesHit(cache, fs, n)
  {
    if i < n - 1 {
      SourceAppears(cache, fs, n - 1, i);
    }
  }

  lemma {:induction false} FrameIdsPartition(cache: map<Key, seq<Hit>>, fs: seq<Frame>, n: nat, ids: seq<string>)
    requires n <= |fs| && Distinct(ids)
    requires forall i :: 0 <= i < n && SingleSource(cache, fs[i]).Some? ==> SingleSource(cache, fs[i]).value in ids
    ensures SumFrameIds(cache, fs, n, ids) == SingleCount(cache, fs, n)
  {
    hide SingleSource;
    if n == 0 {
      NoFrameIds(cache, fs, ids);
    } else {
      FrameIdsPartition(cache, fs, n - 1, ids);
      SumFrameIdsStep(cache, fs, n - 1, ids);
    }
  }

  lemma {:induction false} SumHitsIs(cache: map<Key, seq<Hit>>, fs: seq<Frame>, sources: seq<Definition>, ids: seq<string>)
    requires Known(sources, ids)
    ensures SumHits(SummariesFor(cache, fs, sources, ids)) == SumFrameIds(cache, fs, |fs|, ids)
  {
    hide FrameIdsOf, DwellUpTo, ReturnCount, TrackOf;
    if ids != [] {
      var ss := SummariesFor(cache, fs, sources, ids);
      SumHitsIs(cache, fs, sources, ids[..|ids| - 1]);
      assert ss[..|ss| - 1] == SummariesFor(cache, fs, sources, ids[..|ids| - 1]);
    }
  }

  /** The total hit count is the number of frames with a single hit. */
  lemma TotalIsSingleCount(cache: map<Key, seq<Hit>>, fs: seq<Frame>, sources: seq<Definition>)
    requires HitsKnown(cache, sources)
    ensures SumHits(SummariesFor(cache, fs, sources, HitIds(cache, fs, sources))) == SingleCount(cache, fs, |fs|)
  {
    hide SourcesHit, SingleSource, HitsKnown;
    var ids := HitIds(cache, fs, sources);
    SumHitsIs(cache, fs, sources, ids);
    forall i | 0 <= i < |fs| && SingleSource(cache, fs[i]).Some?
      ensures SingleSource(cache, fs[i]).value in ids
    {
      SourceAppears(cache, fs, |fs|, i);
    }
    FrameIdsPartition(cache, fs, |fs|, ids);
  }

  lemma {:induction false} WeightsOfOne(ss: seq<SourceSummary>, select: Features -> seq<string>)
    requires forall f :: |select(f)| == 1
    ensures Total(Weights(ss, select)) == SumHits(ss)
  {
    if ss != [] {
      var init, s := ss[..|ss| - 1], ss[|ss| - 1];
      WeightsOfOne(init, select);
      assert Weights(ss, select) == Weights(init, select) + [Weighted(select(s.features)[0], s)];
      ValuesExtended(Weights(init, select), Weighted(select(s.features)[0], s));
    }
  }

  /** For a feature with one value per source, the scores add up to the total hit count. */
  lemma SingleValuedScores(ss: seq<SourceSummary>, select: Features -> seq<string>)
    requires forall f :: |select(f)| == 1
    ensures SumScores(FeatureScores(Weights(ss, select))) == SumHits(ss)
  {
    hide FeatureScores, Weights, SumHits, Total;
    WeightsOfOne(ss, select);
    FeatureScoresConserve(Weights(ss, select));
  }

  lemma {:induction false} FrameIdsGrounded(cache: map<Key, seq<Hit>>, fs: seq<Frame>, n: nat, source: string, id: string)
    requires n <= |fs| && id in FrameIdsOf(cache, fs, n, source)
    ensures exists f :: f in fs && f.frameId == id && SingleSource(cache, f) == Some(source)
  {
    hide SingleSource;
    if id in FrameIdsOf(cache, fs, n - 1, source) {
      FrameIdsGrounded(cache, fs, n - 1, source, id);
    } else {
      assert fs[n - 1] in fs;
    }
  }

  /**
   Source evidence conserves frames: single + ambiguous + unhit are all of them; the total and the
   scores of each single-valued feature count the single hits; per source, runs = returns + segments
   and attention adds up over the runs; every listed frame id belongs to a frame that hits that source
   alone.
   */
  lemma SourceEvidenceConserves(observations: seq<Frame>, cache: map<Key, seq<Hit>>, sources: seq<Definition>)
    requires HitsKnown(cache, sources)
    requires Built(observations, cache, sources).Ok? && Built(observations, cache, sources).value.Some?
    ensures var e, fs := Built(observations, cache, sources).value.value, Ordered(observations);
      && e.totalHits + e.ambiguous + UnhitCount(cache, fs, |fs|) == |observations|
      && SumScores(e.colorPrimary) == SumScores(e.colorFamily) == e.totalHits
      && SumScores(e.silhouette) == SumScores(e.categoryType) == e.totalHits
      && (forall s :: s in e.sources ==> SourceConserves(cache, fs, s))
  {
    hide EvidenceFrom, SummariesFor, SingleSource, HitsKnown, SourcesHit, SumScores, SumHits, FeatureScores, Weights,
      SourceConserves, Dedup, AmbiguousCount, UnhitCount, SingleCount;
    var fs := Ordered(observations);
    var ids := HitIds(cache, fs, sources);
    var ss := SummariesFor(cache, fs, sources, ids);
    EvidenceParts(ss, AmbiguousCount(cache, fs, |fs|));
    SortElements(FrameLess, observations);
    FramesConserved(cache, fs, |fs|);
    TotalIsSingleCount(cache, fs, sources);
    SingleValuedScores(ss, ColorPrimary);
    SingleValuedScores(ss, ColorFamily);
    SingleValuedScores(ss, Silhouette);
    SingleValuedScores(ss, CategoryType);
    forall s | s in ss ensures SourceConserves(cache, fs, s) {
      var k :| 0 <= k < |ss| && ss[k] == s;
      SummaryConserves(cache, fs, sources, ids[k]);
    }
  }

  lemma EvidenceParts(ss: seq<SourceSummary>, ambiguous: nat)
    ensures var e := EvidenceFrom(ss, ambiguous);
      && e.totalHits == SumHits(ss) && e.ambiguous == ambiguous && e.sources == ss
      && e.colorPrimary == FeatureScores(Weights(ss, ColorPrimary))
      && e.colorFamily == FeatureScores(Weights(ss, ColorFamily))
      && e.silhouette == FeatureScores(Weights(ss, Silhouette))
      && e.categoryType == FeatureScores(Weights(ss, CategoryType))
  {
    hide FeatureScores, Weights, SumHits;
  }

  /** What one source's summary says about the frames. */
  ghost predicate SourceConserves(cache: map<Key, seq<Hit>>, fs: seq<Frame>, s: SourceSummary) {
    var t := TrackOf(cache, fs);
    && CountRuns(RunsOf(t, |fs|), s.sourceId) == s.returnCount + |SegmentsWith(t, |fs|, s.sourceId)|
    && s.attentionMs == DwellUpTo(t, |fs|, s.sourceId)
    && s.hitCount == |s.frameIds| && s.hitCount >= 1
    && forall id :: id in s.frameIds ==>
      exists f :: f in fs && f.frameId == id && SingleSource(cache, f) == Some(s.sourceId)
  }

  lemma SummaryConserves(cache: map<Key, seq<Hit>>, fs: seq<Frame>, sources: seq<Definition>, id: string)
    requires Has(sources, id)
    requires id in SourcesHit(cache, fs, |fs|)
    ensures SourceConserves(cache, fs, SummaryOf(cache, fs, sources, id))
  {
    hide SingleSource, SourceBreak, RunsOf, FrameIdsOf, DwellUpTo, SourcesHit, SegmentsWith, ReturnCount;
    RunsReturnsSegments(TrackOf(cache, fs), |fs|, id);
    HitHasFrame(cache, fs, |fs|, id);
    forall f | f in FrameIdsOf(cache, fs, |fs|, id)
      ensures exists g :: g in fs && g.frameId == f && SingleSource(cache, g) == Some(id)
    {
      FrameIdsGrounded(cache, fs, |fs|, id, f);
    }
  }

  lemma {:induction false} HitHasFrame(cache: map<Key, seq<Hit>>, fs: seq<Frame>, n: nat, id: string)
    requires n <= |fs|
    ensures id in SourcesHit(cache, fs, n) <==> FrameIdsOf(cache, fs, n, id) != []
  {
    hide SingleSource;
    if n > 0 {
      HitHasFrame(cache, fs, n - 1, id);
    }
  }
}
