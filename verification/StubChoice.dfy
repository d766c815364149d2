/**
 Which product the deterministic client picks and what it points at, said of the request alone, and when it
 answers at all.
 */
module StubChoice {
  import opened Common
  import opened Observations
  import opened Sorting
  import opened SourceAoi
  import opened Ingestion
  import opened Evidence
  import opened EvidenceSummary
  import opened SourceEvidence
  import opened Matching
  import opened Gate
  import opened Completion
  import opened Stub

  // ----- Legacy path -----

  predicate Gazed(s: ProductSummary) {
    s.gaze.Some? && s.gaze.value.validCount > 0
  }

  function Returned(g: GazeSummary): nat {
    if g.returnCandidates.Some? then g.returnCandidates.value else 0
  }

  /** More valid gaze, or as much and more attention, or both equal and more returns, or all equal and a smaller id. */
  ghost predicate Beats(a: ProductSummary, b: ProductSummary)
    requires Gazed(a) && Gazed(b)
  {
    var x, y := a.gaze.value, b.gaze.value;
    || x.validCount > y.validCount
    || (x.validCount == y.validCount && x.attentionMs > y.attentionMs)
    || (x.validCount == y.validCount && x.attentionMs == y.attentionMs && Returned(x) > Returned(y))
    || (x.validCount == y.validCount && x.attentionMs == y.attentionMs && Returned(x) == Returned(y)
        && StringLess(a.productId, b.productId))
  }

  /** A summary with gaze that no summary with gaze beats. */
  ghost predicate Leads(summary: seq<ProductSummary>, s: ProductSummary) {
    s in summary && Gazed(s) && forall t :: t in summary && Gazed(t) ==> !Beats(t, s)
  }

  /** The reference names the first window of the product. */
  ghost predicate FirstWindow(windows: seq<Window>, product: string, ref: Ref) {
    exists k :: 0 <= k < |windows| && windows[k].productId == product && ref == Ref(WindowRef, windows[k].windowId)
      && forall j :: 0 <= j < k ==> windows[j].productId != product
  }

  /** The reference names the first frame that has the product as its only candidate. */
  ghost predicate FirstFrame(frames: seq<Frame>, product: string, ref: Ref) {
    exists k :: 0 <= k < |frames| && OneCandidate(frames[k], product) && ref == Ref(FrameRef, frames[k].frameId)
      && forall j :: 0 <= j < k ==> !OneCandidate(frames[j], product)
  }

  lemma SignalsRank()
    ensures Ranks(SignalLess)
  {
    forall a: ProductSummary, b: ProductSummary ensures StringLess(a.productId, b.productId) ==> !StringLess(b.productId, a.productId) {
      StringTotal(a.productId, b.productId);
    }
    forall a: ProductSummary, b: ProductSummary, c: ProductSummary | SignalLess(a, c)
      ensures SignalLess(a, b) || SignalLess(b, c)
    {
      IdsRank(a.productId, b.productId, c.productId);
    }
  }

  lemma IdsRank(a: string, b: string, c: string)
    ensures StringLess(a, c) ==> StringLess(a, b) || StringLess(b, c)
  {
    StringTotal(a, b);
    StringTotal(b, c);
    if StringLess(a, c) && StringLess(b, a) {
      StringTransitive(b, a, c);
    }
  }

  lemma AheadIsBeating(a: ProductSummary, b: ProductSummary)
    requires Gazed(a) && Gazed(b)
    ensures SignalLess(a, b) <==> Beats(a, b)
  {
  }

  lemma FirstSignalLeads(summary: seq<ProductSummary>)
    requires GazeSignals(summary) != []
    ensures Sort(SignalLess, GazeSignals(summary)) != []
    ensures Leads(summary, Sort(SignalLess, GazeSignals(summary))[0])
  {
    hide SignalLess, Beats;
    var signals := GazeSignals(summary);
    SignalsRank();
    HeadUnbeaten(SignalLess, signals);
    var s := Sort(SignalLess, signals)[0];
    forall t | t in summary && Gazed(t) ensures !Beats(t, s) {
      assert t in signals;
      AheadIsBeating(t, s);
    }
  }

  /** Two leading summaries are summaries of one product. */
  lemma LeadersAgree(summary: seq<ProductSummary>, s: ProductSummary, t: ProductSummary)
    requires Leads(summary, s) && Leads(summary, t)
    ensures s.productId == t.productId
  {
    StringTotal(s.productId, t.productId);
  }

  lemma {:induction false} FirstOfWindows(windows: seq<Window>, product: string)
    ensures WindowsFor(windows, product) != [] ==>
              FirstWindow(windows, product, Ref(WindowRef, WindowsFor(windows, product)[0].windowId))
  {
    if windows != [] {
      FirstOfWindows(windows[1..], product);
      if windows[0].productId == product {
        assert FirstWindow(windows, product, Ref(WindowRef, windows[0].windowId));
      } else if WindowsFor(windows, product) != [] {
        var id := WindowsFor(windows, product)[0].windowId;
        WindowLater(windows, product, Ref(WindowRef, id));
      }
    }
  }

  lemma WindowLater(windows: seq<Window>, product: string, ref: Ref)
    requires windows != [] && windows[0].productId != product && FirstWindow(windows[1..], product, ref)
    ensures FirstWindow(windows, product, ref)
  {
    var rest := windows[1..];
    var k :| 0 <= k < |rest| && rest[k].productId == product && ref == Ref(WindowRef, rest[k].windowId)
      && forall j :: 0 <= j < k ==> rest[j].productId != product;
    forall j | 0 <= j < k + 1 ensures windows[j].productId != product {
      assert j > 0 ==> windows[j] == rest[j - 1];
    }
    assert windows[k + 1] == rest[k];
  }

  lemma {:induction false} FirstOfFrames(frames: seq<Frame>, product: string)
    ensures CandidateFrames(frames, product) != [] ==>
              FirstFrame(frames, product, Ref(FrameRef, CandidateFrames(frames, product)[0].frameId))
  {
    hide OneCandidate;
    if frames != [] {
      FirstOfFrames(frames[1..], product);
      if OneCandidate(frames[0], product) {
        assert FirstFrame(frames, product, Ref(FrameRef, frames[0].frameId));
      } else if CandidateFrames(frames, product) != [] {
        FrameLater(frames, product, Ref(FrameRef, CandidateFrames(frames, product)[0].frameId));
      }
    }
  }

  lemma FrameLater(frames: seq<Frame>, product: string, ref: Ref)
    requires frames != [] && !OneCandidate(frames[0], product) && FirstFrame(frames[1..], product, ref)
    ensures FirstFrame(frames, product, ref)
  {
    hide OneCandidate;
    var rest := frames[1..];
    var k :| 0 <= k < |rest| && OneCandidate(rest[k], product) && ref == Ref(FrameRef, rest[k].frameId)
      && forall j :: 0 <= j < k ==> !OneCandidate(rest[j], product);
    forall j | 0 <= j < k + 1 ensures !OneCandidate(frames[j], product) {
      assert j > 0 ==> frames[j] == rest[j - 1];
    }
    assert frames[k + 1] == rest[k];
  }

  /** How many summaries have gaze. */
  ghost function GazedPlaces(summary: seq<ProductSummary>): set<nat> {
    set i | 0 <= i < |summary| && Gazed(summary[i])
  }

  lemma PlacesShift(summary: seq<ProductSummary>)
    requires summary != []
    ensures GazedPlaces(summary) == Shifted(GazedPlaces(summary[1..])) + if Gazed(summary[0]) then {0} else {}
    ensures 0 !in Shifted(GazedPlaces(summary[1..]))
  {
    hide Gazed;
    var rest := summary[1..];
    forall i | i in GazedPlaces(summary) && i > 0 ensures i in Shifted(GazedPlaces(rest)) {
      assert summary[i] == rest[i - 1] && i - 1 in GazedPlaces(rest);
    }
  }

  lemma {:induction false} SignalCount(summary: seq<ProductSummary>)
    ensures |GazeSignals(summary)| == |GazedPlaces(summary)|
  {
    hide GazedPlaces, Shifted;
    if summary == [] {
      NoPlaces();
    } else {
      SignalCount(summary[1..]);
      ShiftedPlaces(GazedPlaces(summary[1..]));
      PlacesShift(summary);
    }
  }

  lemma NoPlaces()
    ensures GazedPlaces([]) == {}
  {
  }

  ghost function Shifted(places: set<nat>): set<nat> {
    set i | i in places :: i + 1
  }

  lemma {:induction false} ShiftedPlaces(places: set<nat>)
    ensures |Shifted(places)| == |places|
    decreases |places|
  {
    if places == {} {
      assert Shifted(places) == {};
    } else {
      var i :| i in places;
      ShiftedPlaces(places - {i});
      assert places == places - {i} + {i};
      forall k ensures k in Shifted(places) <==> k in Shifted(places - {i}) || k == i + 1 {
        assert k in Shifted(places) <==> k - 1 in places;
      }
      assert Shifted(places) == Shifted(places - {i}) + {i + 1};
    }
  }

  /** One product in view is focus, two or three are a comparison, more are broad exploration. */
  ghost predicate TendencyOf(count: nat, t: Tendency) {
    && (t == FocusedSingleProduct <==> count == 1) && (t == BroadExploration <==> count > 3)
  }

  /**
   The legacy answer names a product whose summary leads, under its first tag, and points at the first window, or on
   variant B the first one-candidate frame, of that product.
   */
  lemma LegacyChoice(request: Request, o: Output)
    requires request.source.None? && Recommend(request) == Some(o)
    requires forall i, j :: 0 <= i < j < |request.products| ==> request.products[i].productId != request.products[j].productId
    ensures exists s :: Leads(request.evidence.summary, s) && s.productId == o.productId
    ensures exists p :: p in request.products && p.productId == o.productId
                        && o.style.matchedTags == [if p.controlledTags == [] then "observed" else p.controlledTags[0]]
    ensures |o.evidence| == 1 && o.evidence[0].code == ObservedAttention && |o.evidence[0].refs| == 1
    ensures if request.evidence.variant == B then FirstFrame(request.Timeline(), o.productId, o.evidence[0].refs[0])
            else FirstWindow(request.Windows(), o.productId, o.evidence[0].refs[0])
    ensures TendencyOf(|GazedPlaces(request.evidence.summary)|, o.tendency)
  {
    hide SignalLess, GazeSignals, CandidateFrames, WindowsFor, ProfileOf, Leads, FirstFrame, FirstWindow, GazedPlaces;
    FirstSignalLeads(request.evidence.summary);
    FirstOfFrames(request.Timeline(), o.productId);
    FirstOfWindows(request.Windows(), o.productId);
    SignalCount(request.evidence.summary);
  }

  /** The client answers exactly when some summary leads, its product is in the catalog, and there is something to point at. */
  lemma LegacyAnswers(request: Request)
    requires request.source.None?
    ensures Recommend(request).Some? <==>
      exists s :: Leads(request.evidence.summary, s) && s.productId in ProductIds(request.products)
        && if request.evidence.variant == B then exists f :: f in request.Timeline() && OneCandidate(f, s.productId)
           else exists w :: w in request.Windows() && w.productId == s.productId
  {
    hide SignalLess, GazeSignals, CandidateFrames, WindowsFor, ProfileOf, Leads, OneCandidate, ProductIds;
    var summary := request.evidence.summary;
    if GazeSignals(summary) != [] {
      FirstSignalLeads(summary);
      var s := Sort(SignalLess, GazeSignals(summary))[0];
      KnownProduct(request.products, s.productId);
      FramesListed(request.Timeline(), s.productId);
      WindowsListed(request.Windows(), s.productId);
      forall t | Leads(summary, t) ensures t.productId == s.productId {
        LeadersAgree(summary, s, t);
      }
    } else {
      NobodyLeads(summary);
    }
  }

  lemma NobodyLeads(summary: seq<ProductSummary>)
    requires GazeSignals(summary) == []
    ensures forall t :: !Leads(summary, t)
  {
    hide Beats;
    assert forall s :: s in summary && Gazed(s) ==> s in GazeSignals(summary);
  }

  lemma FramesListed(frames: seq<Frame>, product: string)
    ensures CandidateFrames(frames, product) != [] <==> exists f :: f in frames && OneCandidate(f, product)
  {
    hide OneCandidate;
    var kept := CandidateFrames(frames, product);
    if kept != [] {
      assert kept[0] in kept;
    }
    if f :| f in frames && OneCandidate(f, product) {
      assert f in kept;
    }
  }

  lemma WindowsListed(windows: seq<Window>, product: string)
    ensures WindowsFor(windows, product) != [] <==> exists w :: w in windows && w.productId == product
  {
    var kept := WindowsFor(windows, product);
    if kept != [] {
      assert kept[0] in kept;
    }
    if w :| w in windows && w.productId == product {
      assert w in kept;
    }
  }

  // ----- Source path -----

  /** No matching product scores higher, and none that scores as much has a smaller id. */
  ghost predicate SourceLeads(products: seq<MatchingProduct>, e: VisualEvidence, m: MatchingProduct) {
    && m in products
    && forall n :: n in products ==>
      || WeightedScore(n.profile, e) < WeightedScore(m.profile, e)
      || (WeightedScore(n.profile, e) == WeightedScore(m.profile, e) && !StringLess(n.productId, m.productId))
  }

  /** The value is known, and was observed for a feature in which the profile has it. */
  ghost predicate InCommon(f: Features, e: VisualEvidence, v: string) {
    && v != "unknown"
    && (|| (v == f.colorPrimary && ScoredIn(e.colorPrimary, v)) || (v == f.colorFamily && ScoredIn(e.colorFamily, v))
        || (v == f.silhouette && ScoredIn(e.silhouette, v)) || (v == f.categoryType && ScoredIn(e.categoryType, v))
        || (v in f.patterns && ScoredIn(e.patterns, v)) || (v in f.accessories && ScoredIn(e.accessories, v)))
  }

  /**
   The tags are the product's tags that the observed features share with its profile; if there are none, the
   first of the product's tags that its matching profile also has.
   */
  ghost predicate Styled(p: Product, m: MatchingProduct, e: VisualEvidence, tags: seq<string>) {
    if exists t :: t in p.controlledTags && InCommon(m.profile, e, t) then
      Distinct(tags) && forall t :: t in tags <==> t in p.controlledTags && InCommon(m.profile, e, t)
    else
      exists k :: 0 <= k < |p.controlledTags| && tags == [p.controlledTags[k]] && p.controlledTags[k] in m.controlledTags
        && forall j :: 0 <= j < k ==> p.controlledTags[j] !in m.controlledTags
  }

  /** The smallest id of a frame that some listed source AOI was hit in. */
  ghost predicate LeastFrame(e: VisualEvidence, id: string) {
    id in e.GroundedFrameIds() && forall other :: other in e.GroundedFrameIds() ==> !StringLess(other, id)
  }

  lemma RankedRank()
    ensures Ranks(RankedLess)
  {
    forall a: Ranked, b: Ranked ensures RankedLess(a, b) ==> !RankedLess(b, a) {
      StringTotal(a.product.productId, b.product.productId);
    }
    forall a: Ranked, b: Ranked, c: Ranked | RankedLess(a, c) ensures RankedLess(a, b) || RankedLess(b, c) {
      IdsRank(a.product.productId, b.product.productId, c.product.productId);
    }
  }

  lemma IdsAreRanked()
    ensures Ranks(StringLess)
  {
    forall a, b ensures StringLess(a, b) ==> !StringLess(b, a) {
      StringTotal(a, b);
    }
    forall a, b, c | StringLess(a, c) ensures StringLess(a, b) || StringLess(b, c) {
      IdsRank(a, b, c);
    }
  }

  lemma FirstRankedLeads(products: seq<MatchingProduct>, e: VisualEvidence)
    requires products != [] && forall m :: m in products ==> m.profile.Valid()
    ensures var ranked := Sort(RankedLess, RankedOf(products, e));
      && ranked != [] && SourceLeads(products, e, ranked[0].product)
      && ranked[0].score == WeightedScore(ranked[0].product.profile, e)
      && ranked[0].values == MatchedValues(AllClaims(ranked[0].product.profile, e))
  {
    hide SumWorth, MatchedValues, AllClaims, WeightedScore, Features.Valid;
    var all := RankedOf(products, e);
    RankedRank();
    HeadUnbeaten(RankedLess, all);
    var first := Sort(RankedLess, all)[0];
    forall k | 0 <= k < |products| ensures all[k].score == WeightedScore(products[k].profile, e) {
      assert products[k] in products;
      ScoreIsWeighted(products[k].profile, e);
    }
    var k :| 0 <= k < |all| && all[k] == first;
    forall n | n in products
      ensures || WeightedScore(n.profile, e) < first.score
              || (WeightedScore(n.profile, e) == first.score && !StringLess(n.productId, first.product.productId))
    {
      var j :| 0 <= j < |products| && products[j] == n;
      assert all[j] in all;
    }
  }

  lemma FirstIdIsLeast(e: VisualEvidence)
    requires SortedGroundedIds(e) != []
    ensures LeastFrame(e, SortedGroundedIds(e)[0])
  {
    hide VisualEvidence.GroundedFrameIds, FrameIdList;
    var ids := Dedup(FrameIdList(e.sources));
    SortMembers(StringLess, ids);
    GroundedFirst(e);
    assert SortedGroundedIds(e)[0] in SortedGroundedIds(e);
    IdsAreRanked();
    HeadUnbeaten(StringLess, ids);
    GroundedListed(e);
  }

  lemma GroundedListed(e: VisualEvidence)
    ensures forall id :: id in e.GroundedFrameIds() <==> id in FrameIdList(e.sources)
  {
    ListedIds(e.sources);
  }

  lemma {:induction false} KeptFirst(tags: seq<string>, allowed: set<string>)
    requires Keep(tags, allowed) != []
    ensures exists k :: (0 <= k < |tags| && Keep(tags, allowed)[0] == tags[k] && tags[k] in allowed
                         && forall j :: 0 <= j < k ==> tags[j] !in allowed)
  {
    if tags[0] in allowed {
      assert tags[0] == Keep(tags, allowed)[0];
    } else {
      var rest := tags[1..];
      KeptFirst(rest, allowed);
      var k :| 0 <= k < |rest| && Keep(rest, allowed)[0] == rest[k] && rest[k] in allowed
        && forall j :: 0 <= j < k ==> rest[j] !in allowed;
      forall j | 0 <= j < k + 1 ensures tags[j] !in allowed {
        assert j > 0 ==> tags[j] == rest[j - 1];
      }
      assert tags[k + 1] == rest[k];
    }
  }

  lemma CommonIs(f: Features, e: VisualEvidence)
    ensures forall v :: v in MatchedValues(AllClaims(f, e)) <==> InCommon(f, e, v)
  {
    hide MatchedValues, AllClaims, ScoredIn;
    forall v ensures v in MatchedValues(AllClaims(f, e)) <==> InCommon(f, e, v) {
      MatchedExactly(f, e, v);
    }
  }

  lemma MatchedTagsAreStyled(p: Product, r: Ranked, e: VisualEvidence)
    requires Distinct(p.controlledTags) && Keep(p.controlledTags, r.values) != []
    requires forall v :: v in r.values <==> InCommon(r.product.profile, e, v)
    ensures Styled(p, r.product, e, Keep(p.controlledTags, r.values))
  {
    hide InCommon, Distinct;
    var matched := Keep(p.controlledTags, r.values);
    assert matched[0] in matched;
  }

  lemma SharedTagIsStyled(p: Product, r: Ranked, e: VisualEvidence, own: set<string>)
    requires Keep(p.controlledTags, r.values) == [] && Keep(p.controlledTags, own) != []
    requires forall v :: v in r.values <==> InCommon(r.product.profile, e, v)
    requires forall v :: v in own <==> v in r.product.controlledTags
    ensures Styled(p, r.product, e, [Keep(p.controlledTags, own)[0]])
  {
    hide InCommon;
    assert forall t :: t in p.controlledTags && t in r.values ==> t in Keep(p.controlledTags, r.values);
    hide Keep;
    KeptFirst(p.controlledTags, own);
  }

  lemma TagsAreStyled(p: Product, r: Ranked, e: VisualEvidence)
    requires p.Valid() && r.values == MatchedValues(AllClaims(r.product.profile, e)) && TagsFor(p, r) != []
    ensures Styled(p, r.product, e, TagsFor(p, r))
  {
    hide MatchedValues, AllClaims, InCommon, Product.Valid, Styled, Keep;
    CommonIs(r.product.profile, e);
    ValidTags(p);
    if Keep(p.controlledTags, r.values) != [] {
      MatchedTagsAreStyled(p, r, e);
    } else {
      var own := set t | t in r.product.controlledTags;
      SharedTagIsStyled(p, r, e, own);
      assert TagsFor(p, r) == [Keep(p.controlledTags, own)[0]];
    }
  }

  lemma ValidTags(p: Product)
    requires p.Valid()
    ensures Distinct(p.controlledTags)
  {
  }

  /**
   The source answer names a matching product that leads and scores, with the tags that it shares, and points twice
   at the least grounded frame id.
   */
  lemma SourceChoice(request: Request, e: VisualEvidence, o: Output) returns (m: MatchingProduct, p: Product, id: string)
    requires request.source == Some(e) && SourceRequest(request) && Recommend(request) == Some(o)
    ensures SourceLeads(request.MatchingProducts(), e, m) && m.productId == o.productId && WeightedScore(m.profile, e) > 0
    ensures p in request.products && p.productId == o.productId && Styled(p, m, e, o.style.matchedTags)
    ensures LeastFrame(e, id) && |o.evidence| == 2
    ensures o.evidence[0].code == ObservedAttention && o.evidence[0].refs == [Ref(FrameRef, id)]
    ensures o.evidence[1].code == ProductTagMatch && o.evidence[1].refs == [Ref(FrameRef, id)]
    ensures TendencyOf(|e.sources|, o.tendency)
  {
    hide SumWorth, MatchedValues, AllClaims, TagsFor, VisualEvidence.GroundedFrameIds, SortedGroundedIds, RankedLess,
      ProfileOf, Styled, SourceLeads, LeastFrame, WeightedScore, RankedOf, Features.Valid, Product.Valid, UniqueMatching,
      MatchingIds, ProductIds;
    NoneRanked(request, e);
    FirstRankedLeads(request.MatchingProducts(), e);
    var first := Sort(RankedLess, RankedOf(request.MatchingProducts(), e))[0];
    m, p := first.product, ProfileOf(request.products, first.product.productId).value;
    TagsAreStyled(p, first, e);
    FirstIdIsLeast(e);
    id := SortedGroundedIds(e)[0];
  }

  lemma NoneRanked(request: Request, e: VisualEvidence)
    requires RecommendFromSource(request, e).Some?
    ensures request.MatchingProducts() != []
  {
    hide RankedLess, SumWorth, AllClaims, MatchedValues;
    SortElements(RankedLess, RankedOf(request.MatchingProducts(), e));
  }

  /** The product has a tag to answer with: one in common with what was observed, or one of its matching profile. */
  ghost predicate Taggable(p: Product, m: MatchingProduct, e: VisualEvidence) {
    exists t :: t in p.controlledTags && (InCommon(m.profile, e, t) || t in m.controlledTags)
  }

  lemma TaggableMeans(p: Product, r: Ranked, e: VisualEvidence)
    requires r.values == MatchedValues(AllClaims(r.product.profile, e))
    ensures TagsFor(p, r) != [] <==> Taggable(p, r.product, e)
  {
    hide MatchedValues, AllClaims, InCommon;
    CommonIs(r.product.profile, e);
    var own := set t | t in r.product.controlledTags;
    var matched, shared := Keep(p.controlledTags, r.values), Keep(p.controlledTags, own);
    assert matched != [] ==> matched[0] in matched;
    assert shared != [] ==> shared[0] in shared;
    if t :| t in p.controlledTags && (InCommon(r.product.profile, e, t) || t in r.product.controlledTags) {
      assert t in matched || t in shared;
    }
  }

  lemma SourceLeaderUnique(products: seq<MatchingProduct>, e: VisualEvidence, m: MatchingProduct, n: MatchingProduct)
    requires UniqueMatching(products) && SourceLeads(products, e, m) && SourceLeads(products, e, n)
    ensures m == n
  {
    hide WeightedScore;
    StringTotal(m.productId, n.productId);
    var i :| 0 <= i < |products| && products[i] == m;
    var j :| 0 <= j < |products| && products[j] == n;
  }

  lemma GroundedSome(e: VisualEvidence)
    ensures SortedGroundedIds(e) != [] <==> e.GroundedFrameIds() != {}
  {
    hide VisualEvidence.GroundedFrameIds, FrameIdList;
    GroundedListed(e);
    SortedSetMembers(FrameIdList(e.sources));
    if FrameIdList(e.sources) != [] {
      assert FrameIdList(e.sources)[0] in e.GroundedFrameIds();
    }
  }

  lemma ProfileUnique(products: seq<Product>, p: Product)
    requires forall i, j :: 0 <= i < j < |products| ==> products[i].productId != products[j].productId
    requires p in products
    ensures ProfileOf(products, p.productId) == Some(p)
  {
    var found := ProfileOf(products, p.productId);
    var i :| 0 <= i < |products| && products[i] == p;
    var j :| 0 <= j < |products| && products[j] == found.value;
  }

  /** On the source path the client answers exactly when the leader scores, has a tag to show, and a frame was hit. */
  lemma SourceAnswers(request: Request, e: VisualEvidence)
    requires request.source == Some(e) && SourceRequest(request)
    requires forall i, j :: 0 <= i < j < |request.products| ==> request.products[i].productId != request.products[j].productId
    ensures Recommend(request).Some? <==>
      e.GroundedFrameIds() != {}
      && exists m, p :: SourceLeads(request.MatchingProducts(), e, m) && WeightedScore(m.profile, e) > 0
                        && p in request.products && p.productId == m.productId && Taggable(p, m, e)
  {
    hide SumWorth, MatchedValues, AllClaims, TagsFor, VisualEvidence.GroundedFrameIds, SortedGroundedIds, RankedLess,
      ProfileOf, Taggable, SourceLeads, WeightedScore, RankedOf, Features.Valid, Product.Valid, UniqueMatching,
      MatchingIds, ProductIds;
    GroundedSome(e);
    var products := request.MatchingProducts();
    if Recommend(request).Some? {
      NoneRanked(request, e);
      FirstRankedLeads(products, e);
      var first := Sort(RankedLess, RankedOf(products, e))[0];
      TaggableMeans(ProfileOf(request.products, first.product.productId).value, first, e);
    }
    if m, p :| SourceLeads(products, e, m) && WeightedScore(m.profile, e) > 0
               && p in request.products && p.productId == m.productId && Taggable(p, m, e) {
      LeaderListed(products, e, m);
      FirstRankedLeads(products, e);
      var first := Sort(RankedLess, RankedOf(products, e))[0];
      SourceLeaderUnique(products, e, m, first.product);
      ProfileUnique(request.products, p);
      TaggableMeans(p, first, e);
    }
  }

  lemma LeaderListed(products: seq<MatchingProduct>, e: VisualEvidence, m: MatchingProduct)
    requires SourceLeads(products, e, m)
    ensures products != []
  {
    hide WeightedScore;
  }
}
