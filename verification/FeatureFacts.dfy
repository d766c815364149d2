/** What a feature score counts: the frames whose only source AOI carries that value. */
module FeatureFacts {
  import opened Observations
  import opened SourceAoi
  import opened SourceEvidence
  import opened Sorting

  predicate Shows(cache: map<Key, seq<Hit>>, f: Frame, sources: seq<Definition>, select: Features -> seq<string>, v: string) {
    var id := SingleSource(cache, f);
    id.Some? && Has(sources, id.value) && v in select(DefinitionOf(sources, id.value).features)
  }

  /** Frames whose only source AOI carries the value. */
  function FramesShowing(cache: map<Key, seq<Hit>>, fs: seq<Frame>, n: nat, sources: seq<Definition>,
                         select: Features -> seq<string>, v: string): nat
    requires n <= |fs|
  {
    if n == 0 then 0
    else FramesShowing(cache, fs, n - 1, sources, select, v) + if Shows(cache, fs[n - 1], sources, select, v) then 1 else 0
  }

  /** Frame ids of the listed sources that carry the value. */
  function Carrying(cache: map<Key, seq<Hit>>, fs: seq<Frame>, n: nat, sources: seq<Definition>, ids: seq<string>,
                    select: Features -> seq<string>, v: string): nat
    requires n <= |fs| && Known(sources, ids)
  {
    if ids == [] then 0
    else
      var id := ids[|ids| - 1];
      assert id in ids;
      Carrying(cache, fs, n, sources, ids[..|ids| - 1], select, v)
      + if v in select(DefinitionOf(sources, id).features) then |FrameIdsOf(cache, fs, n, id)| else 0
  }

  lemma {:induction false} ScoreConcat(a: seq<Weighted>, b: seq<Weighted>, v: string)
    ensures ScoreOf(a + b, v) == ScoreOf(a, v) + ScoreOf(b, v)
  {
    if b == [] {
      assert a + b == a;
    } else {
      assert (a + b)[..|a + b| - 1] == a + b[..|b| - 1];
      ScoreConcat(a, b[..|b| - 1], v);
    }
  }

  lemma {:induction false} PairScore(values: seq<string>, s: SourceSummary, v: string)
    requires Distinct(values)
    ensures ScoreOf(Pairs(values, s), v) == if v in values then s.hitCount else 0
  {
    if values != [] {
      var init := values[..|values| - 1];
      PairScore(init, s, v);
      assert Pairs(values, s)[..|init|] == Pairs(init, s);
      assert values == init + [values[|values| - 1]];
    }
  }

  lemma {:induction false} ScoreIsCarrying(cache: map<Key, seq<Hit>>, fs: seq<Frame>, sources: seq<Definition>,
                                           ids: seq<string>, select: Features -> seq<string>, v: string)
    requires Known(sources, ids)
    requires forall d :: d in sources ==> Distinct(select(d.features))
    ensures ScoreOf(Weights(SummariesFor(cache, fs, sources, ids), select), v) ==
      Carrying(cache, fs, |fs|, sources, ids, select, v)
  {
    if ids != [] {
      var init, id := ids[..|ids| - 1], ids[|ids| - 1];
      assert id in ids;
      ScoreIsCarrying(cache, fs, sources, init, select, v);
      CarryingStep(cache, fs, sources, ids, select, v);
    }
  }

  lemma CarryingStep(cache: map<Key, seq<Hit>>, fs: seq<Frame>, sources: seq<Definition>, ids: seq<string>,
                     select: Features -> seq<string>, v: string)
    requires Known(sources, ids) && ids != [] && Has(sources, ids[|ids| - 1]) && Known(sources, ids[..|ids| - 1])
    requires forall d :: d in sources ==> Distinct(select(d.features))
    ensures ScoreOf(Weights(SummariesFor(cache, fs, sources, ids), select), v) ==
      ScoreOf(Weights(SummariesFor(cache, fs, sources, ids[..|ids| - 1]), select), v)
      + if v in select(DefinitionOf(sources, ids[|ids| - 1]).features)
        then |FrameIdsOf(cache, fs, |fs|, ids[|ids| - 1])| else 0
  {
    hide FrameIdsOf, Known, Has, ScoreOf, Pairs;
    var id := ids[|ids| - 1];
    var ss, s := SummariesFor(cache, fs, sources, ids), SummaryOf(cache, fs, sources, id);
    assert ss[..|ss| - 1] == SummariesFor(cache, fs, sources, ids[..|ids| - 1]);
    assert ss[|ss| - 1] == s;
    PairScore(select(s.features), s, v);
    ScoreConcat(Weights(ss[..|ss| - 1], select), Pairs(select(s.features), s), v);
  }

  lemma {:induction false} CarryingGrows(cache: map<Key, seq<Hit>>, fs: seq<Frame>, n: nat, sources: seq<Definition>,
                                         ids: seq<string>, select: Features -> seq<string>, v: string)
    requires n < |fs| && Known(sources, ids) && Distinct(ids)
    ensures Carrying(cache, fs, n + 1, sources, ids, select, v) == Carrying(cache, fs, n, sources, ids, select, v)
      + if SingleSource(cache, fs[n]).Some? && SingleSource(cache, fs[n]).value in ids
           && Shows(cache, fs[n], sources, select, v) then 1 else 0
  {
    hide SingleSource;
    if ids != [] {
      var init, id := ids[..|ids| - 1], ids[|ids| - 1];
      assert ids == init + [id];
      CarryingGrows(cache, fs, n, sources, init, select, v);
    }
  }

  lemma {:induction false} NothingCarried(cache: map<Key, seq<Hit>>, fs: seq<Frame>, sources: seq<Definition>,
                                          ids: seq<string>, select: Features -> seq<string>, v: string)
    requires Known(sources, ids)
    ensures Carrying(cache, fs, 0, sources, ids, select, v) == 0
  {
    if ids != [] {
      NothingCarried(cache, fs, sources, ids[..|ids| - 1], select, v);
    }
  }

  lemma {:induction false} CarryingCounts(cache: map<Key, seq<Hit>>, fs: seq<Frame>, n: nat, sources: seq<Definition>,
                                          ids: seq<string>, select: Features -> seq<string>, v: string)
    requires n <= |fs| && Known(sources, ids) && Distinct(ids)
    requires forall i :: 0 <= i < n && SingleSource(cache, fs[i]).Some? ==> SingleSource(cache, fs[i]).value in ids
    ensures Carrying(cache, fs, n, sources, ids, select, v) == FramesShowing(cache, fs, n, sources, select, v)
  {
    hide SingleSource, Known, Shows;
    if n == 0 {
      NothingCarried(cache, fs, sources, ids, select, v);
    } else {
      CarryingCounts(cache, fs, n - 1, sources, ids, select, v);
      CarryingGrows(cache, fs, n - 1, sources, ids, select, v);
      ShowsSource(cache, fs[n - 1], sources, select, v);
    }
  }

  lemma ShowsSource(cache: map<Key, seq<Hit>>, f: Frame, sources: seq<Definition>, select: Features -> seq<string>, v: string)
    ensures Shows(cache, f, sources, select, v) ==> SingleSource(cache, f).Some?
  {
  }

  lemma {:induction false} ScoresForAt(ps: seq<Weighted>, values: seq<string>, s: FeatureScore)
    requires s in ScoresFor(ps, values)
    ensures s.value in values && s.score == ScoreOf(ps, s.value)
  {
    if values != [] {
      var init, v := values[..|values| - 1], values[|values| - 1];
      assert values == init + [v];
      if s in ScoresFor(ps, init) {
        ScoresForAt(ps, init, s);
      }
    }
  }

  lemma {:induction false} WeightedScorePositive(ps: seq<Weighted>, v: string)
    requires v in Values(ps) && forall p :: p in ps ==> p.summary.hitCount >= 1
    ensures ScoreOf(ps, v) >= 1
  {
    var init, p := ps[..|ps| - 1], ps[|ps| - 1];
    assert ps == init + [p];
    if p.value != v {
      assert Values(ps) == Values(init) + [p.value];
      WeightedScorePositive(init, v);
    }
  }

  lemma ScoreEntry(ps: seq<Weighted>, s: FeatureScore)
    requires s in FeatureScores(ps)
    ensures s.value in Values(ps) && s.score == ScoreOf(ps, s.value)
  {
    hide ScoresFor, ScoreOf, Dedup, Values;
    SortMembers(ScoreLess, ScoresFor(ps, Dedup(Values(ps))));
    ScoresForAt(ps, Dedup(Values(ps)), s);
  }

  lemma {:induction false} WeightsHits(ss: seq<SourceSummary>, select: Features -> seq<string>)
    requires forall s :: s in ss ==> s.hitCount >= 1
    ensures forall p :: p in Weights(ss, select) ==> p.summary.hitCount >= 1
  {
    if ss != [] {
      assert ss == ss[..|ss| - 1] + [ss[|ss| - 1]];
      WeightsHits(ss[..|ss| - 1], select);
    }
  }

  /**
   Every feature score is positive and counts exactly the frames that hit one source AOI alone, that AOI
   carrying the value.
   */
  lemma ScoreCountsFrames(cache: map<Key, seq<Hit>>, fs: seq<Frame>, sources: seq<Definition>,
                          select: Features -> seq<string>, s: FeatureScore)
    requires HitsKnown(cache, sources)
    requires forall d :: d in sources ==> Distinct(select(d.features))
    requires s in FeatureScores(Weights(SummariesFor(cache, fs, sources, HitIds(cache, fs, sources)), select))
    ensures s.score == FramesShowing(cache, fs, |fs|, sources, select, s.value) && s.score >= 1
  {
    hide HitIds, HitsKnown, SummariesFor, FeatureScores, Weights, Values, ScoreOf, Carrying, FramesShowing, SingleSource,
      SourcesHit;
    var ids := HitIds(cache, fs, sources);
    var ss := SummariesFor(cache, fs, sources, ids);
    var ps := Weights(ss, select);
    ScoreEntry(ps, s);
    ScoreIsCarrying(cache, fs, sources, ids, select, s.value);
    forall i | 0 <= i < |fs| && SingleSource(cache, fs[i]).Some?
      ensures SingleSource(cache, fs[i]).value in ids
    {
      SourceAppears(cache, fs, |fs|, i);
    }
    CarryingCounts(cache, fs, |fs|, sources, ids, select, s.value);
    SummariesHit(cache, fs, sources);
    WeightsHits(ss, select);
    WeightedScorePositive(ps, s.value);
  }

  lemma SummariesHit(cache: map<Key, seq<Hit>>, fs: seq<Frame>, sources: seq<Definition>)
    requires HitsKnown(cache, sources)
    ensures forall s :: s in SummariesFor(cache, fs, sources, HitIds(cache, fs, sources)) ==> s.hitCount >= 1
  {
    hide SummaryOf, HitsKnown, SourcesHit, SourceConserves, Dedup;
    var ids := HitIds(cache, fs, sources);
    var ss := SummariesFor(cache, fs, sources, ids);
    forall s | s in ss ensures s.hitCount >= 1 {
      var k :| 0 <= k < |ss| && ss[k] == s;
      SummaryConserves(cache, fs, sources, ids[k]);
      ConservedHits(cache, fs, s);
    }
  }

  lemma ConservedHits(cache: map<Key, seq<Hit>>, fs: seq<Frame>, s: SourceSummary)
    requires SourceConserves(cache, fs, s)
    ensures s.hitCount >= 1
  {
  }

  /** A value with a positive count was shown by some frame. */
  lemma {:induction false} SomeFrameShows(cache: map<Key, seq<Hit>>, fs: seq<Frame>, n: nat, sources: seq<Definition>,
                                          select: Features -> seq<string>, v: string)
    requires n <= |fs| && FramesShowing(cache, fs, n, sources, select, v) >= 1
    ensures exists f :: f in fs && Shows(cache, f, sources, select, v)
  {
    hide Shows;
    if Shows(cache, fs[n - 1], sources, select, v) {
      assert fs[n - 1] in fs;
    } else {
      SomeFrameShows(cache, fs, n - 1, sources, select, v);
    }
  }

  lemma ScoresRank()
    ensures Ranks(ScoreLess)
  {
    forall a: FeatureScore, b: FeatureScore ensures ScoreLess(a, b) ==> !ScoreLess(b, a) {
      StringTotal(a.value, b.value);
    }
    forall a: FeatureScore, b: FeatureScore, c: FeatureScore | ScoreLess(a, c)
      ensures ScoreLess(a, b) || ScoreLess(b, c)
    {
      StringTotal(a.value, b.value);
      StringTotal(b.value, c.value);
      if StringLess(a.value, c.value) && StringLess(b.value, a.value) {
        StringTransitive(b.value, a.value, c.value);
      }
    }
  }

  /** A feature's scores fall along the list, and the values of equal scores do not go back. */
  lemma ScoresDescend(ps: seq<Weighted>, i: nat, j: nat)
    requires i < j < |FeatureScores(ps)|
    ensures var a, b := FeatureScores(ps)[i], FeatureScores(ps)[j];
      a.score > b.score || (a.score == b.score && !StringLess(b.value, a.value))
  {
    hide Ranks, ScoresFor, Dedup, Values;
    ScoresRank();
    RankedSorted(ScoreLess, ScoresFor(ps, Dedup(Values(ps))));
  }
}
