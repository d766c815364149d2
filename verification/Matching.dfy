/** Scoring a catalog product against observed visual features (`source_aoi.product_feature_match_score`). */
module Matching {
  import opened Common
  import opened SourceAoi
  import opened SourceEvidence

  /** One profile value, the observed scores it is looked up in, and what a match is worth. */
  datatype Claim = Claim(value: string, scores: seq<FeatureScore>, weight: nat)

  function Claims(values: seq<string>, scores: seq<FeatureScore>, weight: nat): seq<Claim> {
    seq(|values|, i requires 0 <= i < |values| => Claim(values[i], scores, weight))
  }

  function Single(profile: Features, e: VisualEvidence): seq<Claim> {
    [Claim(profile.colorPrimary, e.colorPrimary, 2), Claim(profile.colorFamily, e.colorFamily, 3),
     Claim(profile.silhouette, e.silhouette, 4), Claim(profile.categoryType, e.categoryType, 2)]
  }

  function AllClaims(profile: Features, e: VisualEvidence): seq<Claim> {
    Single(profile, e) + Claims(profile.patterns, e.patterns, 2) + Claims(profile.accessories, e.accessories, 1)
  }

  /** `next((item for item in values if item.value == value), None)` */
  function Find(scores: seq<FeatureScore>, value: string): (s: Option<FeatureScore>)
    ensures s.Some? ==> s.value in scores && s.value.value == value
    ensures s.None? ==> forall x :: x in scores ==> x.value != value
  {
    if scores == [] then None
    else if scores[0].value == value then Some(scores[0])
    else Find(scores[1..], value)
  }

  /** "unknown" is never a match. No accessory has that value, so one rule serves all six features. */
  predicate Observed(c: Claim) {
    Find(c.scores, c.value).Some? && c.value != "unknown"
  }

  function Worth(c: Claim): nat {
    if Observed(c) then Find(c.scores, c.value).value.score * c.weight else 0
  }

  function SumWorth(cs: seq<Claim>): nat {
    if cs == [] then 0 else SumWorth(cs[..|cs| - 1]) + Worth(cs[|cs| - 1])
  }

  function MatchedValues(cs: seq<Claim>): set<string> {
    set c | c in cs && Observed(c) :: c.value
  }

  lemma SumWorthAppend(cs: seq<Claim>, c: Claim)
    ensures SumWorth(cs + [c]) == SumWorth(cs) + Worth(c)
    ensures MatchedValues(cs + [c]) == MatchedValues(cs) + if Observed(c) then {c.value} else {}
  {
    hide Observed, Worth;
    assert (cs + [c])[..|cs|] == cs;
  }

  method Accumulate(before: nat, matchedBefore: set<string>, cs: seq<Claim>, ghost done: seq<Claim>)
    returns (score: nat, matched: set<string>)
    requires before == SumWorth(done) && matchedBefore == MatchedValues(done)
    ensures score == SumWorth(done + cs) && matched == MatchedValues(done + cs)
  {
    hide SumWorth, MatchedValues, Find;
    score, matched := before, matchedBefore;
    assert done + cs[..0] == done;
    for i := 0 to |cs|
      invariant score == SumWorth(done + cs[..i]) && matched == MatchedValues(done + cs[..i])
    {
      var observed := Find(cs[i].scores, cs[i].value);
      SumWorthAppend(done + cs[..i], cs[i]);
      assert done + cs[..i] + [cs[i]] == done + cs[..i + 1];
      if observed.Some? && cs[i].value != "unknown" {
        score := score + observed.value.score * cs[i].weight;
        matched := matched + {cs[i].value};
      }
    }
    assert cs[..|cs|] == cs;
  }

  /** `product_feature_match_score` */
  method ProductFeatureMatchScore(profile: Features, e: VisualEvidence) returns (score: nat, matched: set<string>)
    ensures score == SumWorth(AllClaims(profile, e)) && matched == MatchedValues(AllClaims(profile, e))
    ensures profile.Valid() ==> score == WeightedScore(profile, e)
  {
    hide SumWorth, MatchedValues, WeightedScore, Features.Valid;
    assert SumWorth([]) == 0 && MatchedValues([]) == {} by {
      NothingMatched();
    }
    score, matched := Accumulate(0, {}, Single(profile, e), []);
    assert [] + Single(profile, e) == Single(profile, e);
    score, matched := Accumulate(score, matched, Claims(profile.patterns, e.patterns, 2), Single(profile, e));
    score, matched := Accumulate(score, matched, Claims(profile.accessories, e.accessories, 1),
                                 Single(profile, e) + Claims(profile.patterns, e.patterns, 2));
    if profile.Valid() {
      ScoreIsWeighted(profile, e);
    }
  }

  lemma NothingMatched()
    ensures SumWorth([]) == 0 && MatchedValues([]) == {}
  {
  }

  // ----- The score as a weighted sum -----

  /** The score listed first for a value, or 0. */
  function FirstScore(scores: seq<FeatureScore>, v: string): (n: nat)
    ensures (forall s :: s in scores ==> s.value != v) ==> n == 0
    ensures forall k :: 0 <= k < |scores| && scores[k].value == v && (forall j :: 0 <= j < k ==> scores[j].value != v) ==>
              n == scores[k].score
  {
    if scores == [] then 0
    else if scores[0].value == v then scores[0].score
    else
      var n := FirstScore(scores[1..], v);
      assert forall k :: 0 < k < |scores| ==> scores[k] == scores[1..][k - 1];
      n
  }

  function KnownScore(scores: seq<FeatureScore>, v: string): nat {
    if v == "unknown" then 0 else FirstScore(scores, v)
  }

  function SumOf(count: string -> nat, values: seq<string>): nat {
    if values == [] then 0 else SumOf(count, values[..|values| - 1]) + count(values[|values| - 1])
  }

  /**
   A silhouette in common counts four times its score, a colour family three times, a primary colour, a category or
   a pattern twice, an accessory once. A value "unknown" counts nothing.
   */
  function WeightedScore(profile: Features, e: VisualEvidence): nat {
    2 * KnownScore(e.colorPrimary, profile.colorPrimary) + 3 * KnownScore(e.colorFamily, profile.colorFamily)
    + 4 * KnownScore(e.silhouette, profile.silhouette) + 2 * KnownScore(e.categoryType, profile.categoryType)
    + 2 * SumOf(v => KnownScore(e.patterns, v), profile.patterns)
    + SumOf(v => FirstScore(e.accessories, v), profile.accessories)
  }

  lemma {:induction false} FindIsFirst(scores: seq<FeatureScore>, v: string)
    ensures FirstScore(scores, v) == if Find(scores, v).Some? then Find(scores, v).value.score else 0
  {
    if scores != [] && scores[0].value != v {
      FindIsFirst(scores[1..], v);
    }
  }

  lemma WorthIs(c: Claim)
    ensures Worth(c) == KnownScore(c.scores, c.value) * c.weight
  {
    hide Find, FirstScore;
    FindIsFirst(c.scores, c.value);
  }

  lemma {:induction false} SumWorthConcat(a: seq<Claim>, b: seq<Claim>)
    ensures SumWorth(a + b) == SumWorth(a) + SumWorth(b)
  {
    hide Worth;
    if b == [] {
      assert a + b == a;
    } else {
      assert (a + b)[..|a + b| - 1] == a + b[..|b| - 1];
      SumWorthConcat(a, b[..|b| - 1]);
    }
  }

  lemma {:induction false} ClaimsWorth(values: seq<string>, scores: seq<FeatureScore>, weight: nat, count: string -> nat)
    requires forall v :: v in values ==> count(v) == KnownScore(scores, v)
    ensures SumWorth(Claims(values, scores, weight)) == weight * SumOf(count, values)
  {
    hide Worth, KnownScore;
    if values != [] {
      var init, last := values[..|values| - 1], values[|values| - 1];
      assert Claims(values, scores, weight)[..|init|] == Claims(init, scores, weight);
      ClaimsWorth(init, scores, weight, count);
      WorthIs(Claim(last, scores, weight));
    }
  }

  lemma SingleWorth(profile: Features, e: VisualEvidence)
    ensures SumWorth(Single(profile, e)) ==
      2 * KnownScore(e.colorPrimary, profile.colorPrimary) + 3 * KnownScore(e.colorFamily, profile.colorFamily)
      + 4 * KnownScore(e.silhouette, profile.silhouette) + 2 * KnownScore(e.categoryType, profile.categoryType)
  {
    hide Worth, KnownScore, SumWorth;
    var primary, family := Claim(profile.colorPrimary, e.colorPrimary, 2), Claim(profile.colorFamily, e.colorFamily, 3);
    var shape, category := Claim(profile.silhouette, e.silhouette, 4), Claim(profile.categoryType, e.categoryType, 2);
    WorthIs(primary);
    WorthIs(family);
    WorthIs(shape);
    WorthIs(category);
    FourWorth(primary, family, shape, category);
  }

  lemma FourWorth(a: Claim, b: Claim, c: Claim, d: Claim)
    ensures SumWorth([a, b, c, d]) == Worth(a) + Worth(b) + Worth(c) + Worth(d)
  {
    hide Worth, SumWorth;
    NothingMatched();
    SumWorthAppend([], a);
    SumWorthAppend([a], b);
    SumWorthAppend([a, b], c);
    SumWorthAppend([a, b, c], d);
    assert [] + [a] == [a] && [a] + [b] == [a, b] && [a, b] + [c] == [a, b, c] && [a, b, c] + [d] == [a, b, c, d];
  }

  /** The accumulated score is the weighted sum: no accessory of a profile is "unknown". */
  lemma ScoreIsWeighted(profile: Features, e: VisualEvidence)
    requires profile.Valid()
    ensures SumWorth(AllClaims(profile, e)) == WeightedScore(profile, e)
  {
    hide SumWorth, KnownScore, FirstScore, Single, Claims, SumOf;
    assert "unknown" !in BAG_ACCESSORIES;
    KnownAccessories(profile, e);
    SumWorthConcat(Single(profile, e), Claims(profile.patterns, e.patterns, 2));
    SumWorthConcat(Single(profile, e) + Claims(profile.patterns, e.patterns, 2), Claims(profile.accessories, e.accessories, 1));
    SingleWorth(profile, e);
    ClaimsWorth(profile.patterns, e.patterns, 2, v => KnownScore(e.patterns, v));
    ClaimsWorth(profile.accessories, e.accessories, 1, v => FirstScore(e.accessories, v));
  }

  lemma KnownAccessories(profile: Features, e: VisualEvidence)
    requires profile.Valid()
    ensures forall v :: v in profile.accessories ==> KnownScore(e.accessories, v) == FirstScore(e.accessories, v)
  {
    hide FirstScore;
  }

  // ----- What a positive score means -----

  ghost predicate PositiveClaim(c: Claim) {
    c.weight >= 1 && forall s :: s in c.scores ==> s.score >= 1
  }

  ghost predicate Positive(cs: seq<Claim>) {
    forall c :: c in cs ==> PositiveClaim(c)
  }

  lemma WorthPositive(c: Claim)
    requires PositiveClaim(c)
    ensures Worth(c) > 0 <==> Observed(c)
  {
    if Observed(c) {
      var s := Find(c.scores, c.value).value;
      assert s.score * c.weight >= 1 * 1;
    }
  }

  /** The two ways to say "no overlap" coincide: the score is positive exactly when some value matched. */
  lemma {:induction false} PositiveScore(cs: seq<Claim>)
    requires Positive(cs)
    ensures SumWorth(cs) > 0 <==> MatchedValues(cs) != {}
  {
    if cs == [] {
    } else {
      var init, c := cs[..|cs| - 1], cs[|cs| - 1];
      assert cs == init + [c];
      assert c in cs;
      hide SumWorth, MatchedValues, Observed, Worth;
      PositiveScore(init);
      SumWorthAppend(init, c);
      WorthPositive(c);
    }
  }

  /** Where a matched value comes from: an observed score of the same feature carries it. */
  lemma MatchedIsObserved(profile: Features, e: VisualEvidence, v: string)
    requires v in MatchedValues(AllClaims(profile, e))
    ensures v != "unknown"
    ensures
      || (v == profile.colorPrimary && ScoredIn(e.colorPrimary, v))
      || (v == profile.colorFamily && ScoredIn(e.colorFamily, v))
      || (v == profile.silhouette && ScoredIn(e.silhouette, v))
      || (v == profile.categoryType && ScoredIn(e.categoryType, v))
      || (v in profile.patterns && ScoredIn(e.patterns, v))
      || (v in profile.accessories && ScoredIn(e.accessories, v))
  {
    hide Find;
    var c :| c in AllClaims(profile, e) && Observed(c) && c.value == v;
    assert Find(c.scores, v).value in c.scores;
    assert ScoredIn(c.scores, v);
  }

  ghost predicate ScoredIn(scores: seq<FeatureScore>, v: string) {
    exists s :: s in scores && s.value == v
  }

  lemma ClaimMatches(cs: seq<Claim>, c: Claim)
    requires c in cs && c.value != "unknown" && ScoredIn(c.scores, c.value)
    ensures c.value in MatchedValues(cs)
  {
    hide Find;
    var s :| s in c.scores && s.value == c.value;
    assert Find(c.scores, c.value).Some?;
    assert Observed(c);
  }

  lemma ListedMatches(values: seq<string>, scores: seq<FeatureScore>, weight: nat, cs: seq<Claim>, v: string)
    requires v in values && v != "unknown" && ScoredIn(scores, v)
    requires forall c :: c in Claims(values, scores, weight) ==> c in cs
    ensures v in MatchedValues(cs)
  {
    hide MatchedValues, ScoredIn;
    var i :| 0 <= i < |values| && values[i] == v;
    assert Claims(values, scores, weight)[i] in Claims(values, scores, weight);
    ClaimMatches(cs, Claim(v, scores, weight));
  }

  /** A value matches exactly when it is known and was observed for a feature in which the profile has it. */
  lemma MatchedExactly(profile: Features, e: VisualEvidence, v: string)
    ensures v in MatchedValues(AllClaims(profile, e)) <==>
      v != "unknown"
      && (|| (v == profile.colorPrimary && ScoredIn(e.colorPrimary, v))
          || (v == profile.colorFamily && ScoredIn(e.colorFamily, v))
          || (v == profile.silhouette && ScoredIn(e.silhouette, v))
          || (v == profile.categoryType && ScoredIn(e.categoryType, v))
          || (v in profile.patterns && ScoredIn(e.patterns, v))
          || (v in profile.accessories && ScoredIn(e.accessories, v)))
  {
    hide MatchedValues, ScoredIn, Claims;
    var cs := AllClaims(profile, e);
    assert forall c :: c in Single(profile, e) ==> c in cs;
    assert forall c :: c in Claims(profile.patterns, e.patterns, 2) ==> c in cs;
    assert forall c :: c in Claims(profile.accessories, e.accessories, 1) ==> c in cs;
    var single := Single(profile, e);
    assert single[0] in cs && single[1] in cs && single[2] in cs && single[3] in cs;
    if v in MatchedValues(cs) {
      MatchedIsObserved(profile, e, v);
    } else if v != "unknown" {
      hide AllClaims, Single;
      if v in profile.patterns && ScoredIn(e.patterns, v) {
        ListedMatches(profile.patterns, e.patterns, 2, cs, v);
      } else if v in profile.accessories && ScoredIn(e.accessories, v) {
        ListedMatches(profile.accessories, e.accessories, 1, cs, v);
      } else if v == profile.colorPrimary && ScoredIn(e.colorPrimary, v) {
        ClaimMatches(cs, Claim(v, e.colorPrimary, 2));
      } else if v == profile.colorFamily && ScoredIn(e.colorFamily, v) {
        ClaimMatches(cs, Claim(v, e.colorFamily, 3));
      } else if v == profile.silhouette && ScoredIn(e.silhouette, v) {
        ClaimMatches(cs, Claim(v, e.silhouette, 4));
      } else if v == profile.categoryType && ScoredIn(e.categoryType, v) {
        ClaimMatches(cs, Claim(v, e.categoryType, 2));
      }
    }
  }
}
