/**
 Reviewed lookbook AOI metadata (`v2_aoi.py`): hierarchy validation and the fail-closed mapping of
 one frame to one product.
 */
module AoiMetadata {
  import opened Common
  import opened Geometry
  import opened Observations
  import opened Sorting

  datatype Exposure = Exposure(aoiId: string, parentAoiId: Option<string>, specificityRank: nat, startMs: nat,
                               endMs: nat, points: seq<Point>, productId: string, componentCode: string,
                               visualTags: set<string>)

  datatype Metadata = Metadata(manifestVersion: string, revision: string, approved: bool, durationMs: nat,
                               exposures: seq<Exposure>)

  datatype MetadataError =
    | PendingWithExposures
    | ApprovedWithoutExposures
    | DuplicateAoiId
    | RangeExceedsMedia
    | RootRankNotZero
    | UnknownParent
    | ProductDiffersFromParent
    | RankNotAboveParent
    | RangeOutsideParent
    | HierarchyCycle

  predicate UniqueIds(es: seq<Exposure>) {
    forall i, j :: 0 <= i < j < |es| ==> es[i].aoiId != es[j].aoiId
  }

  predicate ChildOf(child: Exposure, parent: Exposure) {
    && child.parentAoiId == Some(parent.aoiId)
    && parent.productId == child.productId
    && parent.specificityRank < child.specificityRank
    && parent.startMs <= child.startMs && child.endMs <= parent.endMs
  }

  predicate Placed(e: Exposure, m: Metadata) {
    && e.endMs <= m.durationMs
    && if e.parentAoiId.None? then e.specificityRank == 0
       else exists p :: p in m.exposures && ChildOf(e, p)
  }

  /** What the validator accepts, stated without reference to its order of checks. */
  predicate WellFormed(m: Metadata) {
    && m.approved == (m.exposures != [])
    && UniqueIds(m.exposures)
    && forall e :: e in m.exposures ==> Placed(e, m)
  }

  /** The exposure with the given id, as the validator's `by_id` finds it. */
  function ParentOf(m: Metadata, e: Exposure): (p: Exposure)
    requires WellFormed(m) && e in m.exposures && e.parentAoiId.Some?
    ensures p in m.exposures && ChildOf(e, p)
  {
    assert Placed(e, m);
    SingleParent(m, e);
    var p :| p in m.exposures && ChildOf(e, p);
    p
  }

  lemma SingleParent(m: Metadata, e: Exposure)
    requires UniqueIds(m.exposures)
    ensures forall p, q :: p in m.exposures && q in m.exposures && ChildOf(e, p) && ChildOf(e, q) ==> p == q
  {
  }

  method ById(es: seq<Exposure>) returns (byId: map<string, Exposure>, unique: bool)
    ensures unique == UniqueIds(es)
    ensures forall e :: e in es && unique ==> e.aoiId in byId && byId[e.aoiId] == e
    ensures forall id :: id in byId ==> byId[id] in es && byId[id].aoiId == id
  {
    byId, unique := map[], true;
    for i := 0 to |es|
      invariant unique == UniqueIds(es[..i])
      invariant Indexed(es, i, byId) && (unique ==> Exact(es, i, byId))
    {
      hide UniqueIds, Indexed, Exact;
      Another(es, i, byId);
      if es[i].aoiId in byId {
        unique := false;
      }
      byId := byId[es[i].aoiId := es[i]];
    }
    assert es[..|es|] == es;
  }

  /** The dictionary's keys are the ids of the first `n` exposures, and it holds nothing else. */
  predicate Indexed(es: seq<Exposure>, n: nat, byId: map<string, Exposure>)
    requires n <= |es|
  {
    && (forall k :: 0 <= k < n ==> es[k].aoiId in byId)
    && (forall id :: id in byId ==> byId[id].aoiId == id && Early(es, n, byId[id]))
  }

  predicate Early(es: seq<Exposure>, n: nat, e: Exposure)
    requires n <= |es|
  {
    exists k :: 0 <= k < n && es[k] == e
  }

  predicate Exact(es: seq<Exposure>, n: nat, byId: map<string, Exposure>)
    requires n <= |es|
  {
    forall k :: 0 <= k < n ==> es[k].aoiId in byId && byId[es[k].aoiId] == es[k]
  }

  lemma Another(es: seq<Exposure>, n: nat, byId: map<string, Exposure>)
    requires n < |es| && Indexed(es, n, byId)
    ensures Indexed(es, n + 1, byId[es[n].aoiId := es[n]])
    ensures UniqueIds(es[..n + 1]) <==> UniqueIds(es[..n]) && es[n].aoiId !in byId
    ensures es[n].aoiId !in byId && Exact(es, n, byId) ==> Exact(es, n + 1, byId[es[n].aoiId := es[n]])
  {
    StillIndexed(es, n, byId);
    StillUnique(es, n, byId);
    hide UniqueIds, Indexed;
  }

  lemma StillIndexed(es: seq<Exposure>, n: nat, byId: map<string, Exposure>)
    requires n < |es| && Indexed(es, n, byId)
    ensures Indexed(es, n + 1, byId[es[n].aoiId := es[n]])
    ensures es[n].aoiId !in byId ==> forall k :: 0 <= k < n ==> es[k].aoiId != es[n].aoiId
  {
    hide Early;
    EarlyMore(es, n);
  }

  lemma EarlyMore(es: seq<Exposure>, n: nat)
    requires n < |es|
    ensures Early(es, n + 1, es[n]) && forall e :: Early(es, n, e) ==> Early(es, n + 1, e)
  {
  }

  lemma StillUnique(es: seq<Exposure>, n: nat, byId: map<string, Exposure>)
    requires n < |es| && Indexed(es, n, byId)
    ensures UniqueIds(es[..n + 1]) <==> UniqueIds(es[..n]) && es[n].aoiId !in byId
  {
    var some, more := es[..n], es[..n + 1];
    assert forall k :: 0 <= k < n ==> some[k] == more[k];
    if es[n].aoiId in byId {
      assert Early(es, n, byId[es[n].aoiId]);
      var k :| 0 <= k < n && es[k] == byId[es[n].aoiId];
      assert more[k].aoiId == more[n].aoiId;
    } else {
      assert forall k :: 0 <= k < n ==> es[k].aoiId in byId;
      assert forall k :: 0 <= k < n ==> more[k].aoiId != more[n].aoiId;
    }
  }

  /**
   `validate_approval_and_hierarchy`. It accepts exactly the well-formed metadata, and its cycle
   branch is dead: every parent walk ends because ranks strictly fall.
   */
  method ValidateHierarchy(m: Metadata) returns (r: Result<(), MetadataError>)
    ensures r.Ok? <==> WellFormed(m)
    ensures r != Err(HierarchyCycle)
  {
    if !m.approved && m.exposures != [] {
      return Err(PendingWithExposures);
    }
    if m.approved && m.exposures == [] {
      return Err(ApprovedWithoutExposures);
    }
    var byId, unique := ById(m.exposures);
    if !unique {
      return Err(DuplicateAoiId);
    }
    for i := 0 to |m.exposures|
      invariant forall k :: 0 <= k < i ==> Placed(m.exposures[k], m)
    {
      var exposure := m.exposures[i];
      if exposure.endMs > m.durationMs {
        assert !Placed(exposure, m);
        return Err(RangeExceedsMedia);
      }
      if exposure.parentAoiId.None? {
        if exposure.specificityRank != 0 {
          assert !Placed(exposure, m);
          return Err(RootRankNotZero);
        }
        continue;
      }
      assert forall p :: p in m.exposures && ChildOf(exposure, p) ==>
        p.aoiId in byId && byId[p.aoiId] == p && exposure.parentAoiId.value == p.aoiId;
      if exposure.parentAoiId.value !in byId {
        assert !Placed(exposure, m);
        return Err(UnknownParent);
      }
      var parent := byId[exposure.parentAoiId.value];
      if parent.productId != exposure.productId {
        assert !Placed(exposure, m);
        return Err(ProductDiffersFromParent);
      }
      if parent.specificityRank >= exposure.specificityRank {
        assert !Placed(exposure, m);
        return Err(RankNotAboveParent);
      }
      if parent.startMs > exposure.startMs || parent.endMs < exposure.endMs {
        assert !Placed(exposure, m);
        return Err(RangeOutsideParent);
      }
      assert ChildOf(exposure, parent);
    }
    for i := 0 to |m.exposures| {
      var seen: set<string> := {};
      var current := m.exposures[i];
      while current.parentAoiId.Some?
        invariant current in m.exposures
        invariant forall id :: id in seen ==> id in byId && byId[id].specificityRank > current.specificityRank
        decreases current.specificityRank
      {
        if current.aoiId in seen {
          return Err(HierarchyCycle);
        }
        seen := seen + {current.aoiId};
        var parent := ParentOf(m, current);
        assert byId[current.parentAoiId.value] == parent;
        current := byId[current.parentAoiId.value];
      }
    }
    r := Ok(());
  }

  /** The chain from an exposure to the root of its tree. */
  function PathToRoot(m: Metadata, e: Exposure): (path: seq<Exposure>)
    requires WellFormed(m) && e in m.exposures
    ensures path != [] && path[0] == e
    decreases e.specificityRank
  {
    if e.parentAoiId.None? then [e] else [e] + PathToRoot(m, ParentOf(m, e))
  }

  /** Every walk ends at a root, and product and time range are inherited all the way up. */
  lemma {:induction false} PathInherits(m: Metadata, e: Exposure)
    requires WellFormed(m) && e in m.exposures
    ensures var path := PathToRoot(m, e);
      && |path| <= e.specificityRank + 1
      && path[|path| - 1].parentAoiId.None? && path[|path| - 1].specificityRank == 0
      && (forall i :: 0 <= i < |path| ==>
        path[i] in m.exposures && path[i].productId == e.productId
        && path[i].startMs <= e.startMs && e.endMs <= path[i].endMs)
      && (forall i, j :: 0 <= i < j < |path| ==> path[i].specificityRank > path[j].specificityRank)
    decreases e.specificityRank
  {
    assert Placed(e, m);
    if e.parentAoiId.Some? {
      var parent := ParentOf(m, e);
      PathInherits(m, parent);
      var path, rest := PathToRoot(m, e), PathToRoot(m, parent);
      assert path == [e] + rest && rest[0] == parent;
      forall i, j | 0 <= i < j < |path| ensures path[i].specificityRank > path[j].specificityRank {
        assert path[j] == rest[j - 1];
        assert i > 0 ==> path[i] == rest[i - 1];
        assert j > 1 ==> rest[0].specificityRank > rest[j - 1].specificityRank;
      }
    }
  }

  // ----- Mapping one frame -----

  datatype MappingStatus =
    | Matched
    | MetadataUnapproved
    | GazeUnavailable
    | VideoPointUnavailable
    | OutsideVideo
    | VideoTimeOutOfRange
    | NoAoiMatch
    | AmbiguousProduct

  datatype Mapping = Mapping(status: MappingStatus, productId: Option<string>, aoiIds: seq<string>,
                             componentCodes: set<string>, visualTags: set<string>, candidates: seq<Candidate>)

  function Unmatched(status: MappingStatus): Mapping {
    Mapping(status, None, [], {}, {}, [])
  }

  predicate Contains(e: Exposure, p: Point, videoTime: nat) {
    e.startMs <= videoTime < e.endMs && InPolygon(p, e.points)
  }

  function Matches(es: seq<Exposure>, p: Point, videoTime: nat): seq<Exposure> {
    if es == [] then []
    else (if Contains(es[0], p, videoTime) then [es[0]] else []) + Matches(es[1..], p, videoTime)
  }

  predicate ExposureLess(a: Exposure, b: Exposure) {
    if a.specificityRank != b.specificityRank then a.specificityRank < b.specificityRank
    else StringLess(a.aoiId, b.aoiId)
  }

  function CandidateOf(e: Exposure): Candidate {
    Candidate(e.aoiId, e.productId, e.parentAoiId, e.specificityRank, e.componentCode, e.visualTags)
  }

  function AoiIds(es: seq<Exposure>): seq<string> {
    seq(|es|, i requires 0 <= i < |es| => es[i].aoiId)
  }

  function Candidates(es: seq<Exposure>): seq<Candidate> {
    seq(|es|, i requires 0 <= i < |es| => CandidateOf(es[i]))
  }

  /** `len({exposure.product_id ...}) == 1` */
  predicate OneProduct(es: seq<Exposure>) {
    es != [] && forall e :: e in es ==> e.productId == es[0].productId
  }

  /** The mapping of a frame that already passed every availability check. */
  function MapPoint(es: seq<Exposure>, p: Point, videoTime: nat): Mapping {
    var matches := Matches(es, p, videoTime);
    if matches == [] then Unmatched(NoAoiMatch)
    else if !OneProduct(matches) then Unmatched(AmbiguousProduct)
    else
      var ordered := Sort(ExposureLess, matches);
      Mapping(Matched, Some(matches[0].productId), AoiIds(ordered),
              set e | e in ordered :: e.componentCode,
              set e, t | e in ordered && t in e.visualTags :: t,
              Candidates(ordered))
  }

  /** `map_frame_to_aoi` */
  function MapFrame(frame: Frame, m: Metadata): Mapping
    requires frame.Valid()
  {
    if !m.approved then Unmatched(MetadataUnapproved)
    else if frame.gaze.value.None? then Unmatched(GazeUnavailable)
    else if frame.attention.value.None? then Unmatched(VideoPointUnavailable)
    else if frame.attention.value.value.outsideVideo then Unmatched(OutsideVideo)
    else if frame.videoTime >= m.durationMs then Unmatched(VideoTimeOutOfRange)
    else MapPoint(m.exposures, frame.attention.value.value.point.value, frame.videoTime)
  }

  /** `enrich_frame_with_aoi`: candidates come from the mapping or not at all. */
  function Enrich(frame: Frame, mapping: Mapping): Frame {
    if frame.attention.value.None? then frame
    else
      var candidates := if mapping.status.Matched? then mapping.candidates else [];
      frame.(attention := frame.attention.(value := Some(frame.attention.value.value.(candidates := candidates))))
  }

  /** `_mapped_product_id` */
  function MappedProduct(frame: Frame): Option<string> {
    if frame.attention.value.None? then None
    else
      var cs := frame.attention.value.value.candidates;
      if cs != [] && forall c :: c in cs ==> c.productId == cs[0].productId then Some(cs[0].productId) else None
  }

  /** The point lies in an approved AOI of `product` at that time, and in no AOI of another product. */
  predicate Hits(frame: Frame, m: Metadata, product: string) {
    && m.approved && frame.gaze.value.Some? && frame.attention.value.Some?
    && !frame.attention.value.value.outsideVideo && frame.attention.value.value.point.Some?
    && frame.videoTime < m.durationMs
    && (exists e :: e in m.exposures && Contains(e, frame.attention.value.value.point.value, frame.videoTime))
    && (forall e :: e in m.exposures && Contains(e, frame.attention.value.value.point.value, frame.videoTime) ==>
      e.productId == product)
  }

  lemma {:induction false} MatchesAre(es: seq<Exposure>, p: Point, videoTime: nat)
    ensures forall e :: e in Matches(es, p, videoTime) <==> e in es && Contains(e, p, videoTime)
  {
    if es != [] {
      MatchesAre(es[1..], p, videoTime);
    }
  }

  lemma MatchedCandidates(es: seq<Exposure>, p: Point, videoTime: nat)
    ensures var mapping := MapPoint(es, p, videoTime);
      mapping.status.Matched? <==> OneProduct(Matches(es, p, videoTime))
    ensures var mapping := MapPoint(es, p, videoTime);
      mapping.status.Matched? ==>
        mapping.candidates != [] && mapping.productId.Some?
        && (forall c :: c in mapping.candidates ==> c.productId == mapping.productId.value)
  {
    var matches := Matches(es, p, videoTime);
    SortMembers(ExposureLess, matches);
    SortElements(ExposureLess, matches);
  }

  lemma OneProductMeans(es: seq<Exposure>, p: Point, videoTime: nat, product: string)
    ensures OneProduct(Matches(es, p, videoTime)) && Matches(es, p, videoTime)[0].productId == product <==>
      && (exists e :: e in es && Contains(e, p, videoTime))
      && (forall e :: e in es && Contains(e, p, videoTime) ==> e.productId == product)
  {
    var matches := Matches(es, p, videoTime);
    MatchesAre(es, p, videoTime);
    if matches != [] {
      assert matches[0] in matches;
    }
  }

  /** A frame is attributed to a product exactly when approved AOIs put it on that product alone. */
  lemma MappedProductGrounded(frame: Frame, m: Metadata, product: string)
    requires frame.Valid()
    requires frame.attention.value.Some? ==> frame.attention.value.value.candidates == []
    ensures MappedProduct(Enrich(frame, MapFrame(frame, m))) == Some(product) <==> Hits(frame, m, product)
  {
    if m.approved && frame.gaze.value.Some? && frame.attention.value.Some?
       && !frame.attention.value.value.outsideVideo && frame.videoTime < m.durationMs {
      var p := frame.attention.value.value.point.value;
      MatchedCandidates(m.exposures, p, frame.videoTime);
      OneProductMeans(m.exposures, p, frame.videoTime, product);
    }
  }

  /** The point lies, at that time, in approved AOIs of two different products. */
  predicate OnTwoProducts(frame: Frame, m: Metadata) {
    && m.approved && frame.gaze.value.Some? && frame.attention.value.Some?
    && !frame.attention.value.value.outsideVideo && frame.attention.value.value.point.Some?
    && frame.videoTime < m.durationMs
    && (exists d, e :: d in m.exposures && e in m.exposures && d.productId != e.productId
                  && Contains(d, frame.attention.value.value.point.value, frame.videoTime)
                  && Contains(e, frame.attention.value.value.point.value, frame.videoTime))
  }

  /** A frame maps ambiguously exactly when approved AOIs put it on two products. */
  lemma AmbiguousMeans(frame: Frame, m: Metadata)
    requires frame.Valid()
    ensures MapFrame(frame, m).status.AmbiguousProduct? <==> OnTwoProducts(frame, m)
  {
    if m.approved && frame.gaze.value.Some? && frame.attention.value.Some?
       && !frame.attention.value.value.outsideVideo && frame.videoTime < m.durationMs {
      TwoProductsMatch(m.exposures, frame.attention.value.value.point.value, frame.videoTime);
    }
  }

  lemma TwoProductsMatch(es: seq<Exposure>, p: Point, videoTime: nat)
    ensures MapPoint(es, p, videoTime).status.AmbiguousProduct? <==>
      exists d, e :: d in es && e in es && d.productId != e.productId && Contains(d, p, videoTime) && Contains(e, p, videoTime)
  {
    var matches := Matches(es, p, videoTime);
    MatchesAre(es, p, videoTime);
    if matches != [] {
      assert matches[0] in matches;
    }
  }

  lemma {:induction false} MatchesElements(es: seq<Exposure>, p: Point, videoTime: nat, e: Exposure)
    ensures multiset(Matches(es, p, videoTime))[e] == if Contains(e, p, videoTime) then multiset(es)[e] else 0
  {
    if es != [] {
      assert es == [es[0]] + es[1..];
      assert multiset(es)[e] == multiset([es[0]])[e] + multiset(es[1..])[e];
      MatchesElements(es[1..], p, videoTime, e);
    }
  }

  lemma ExposureOrderTotal(es: seq<Exposure>, all: seq<Exposure>)
    requires UniqueIds(all) && forall e :: e in es ==> e in all
    ensures TotalOn(ExposureLess, multiset(es))
  {
    forall a: Exposure ensures !ExposureLess(a, a) {
      StringTotal(a.aoiId, a.aoiId);
    }
    forall a, b | a in multiset(es) && b in multiset(es) && a != b ensures ExposureLess(a, b) || ExposureLess(b, a) {
      assert a in es && b in es;
      StringTotal(a.aoiId, b.aoiId);
    }
    forall a: Exposure, b: Exposure, c: Exposure | ExposureLess(a, b) && ExposureLess(b, c) ensures ExposureLess(a, c) {
      if StringLess(a.aoiId, b.aoiId) && StringLess(b.aoiId, c.aoiId) {
        StringTransitive(a.aoiId, b.aoiId, c.aoiId);
      }
    }
  }

  lemma OneProductPermutationInvariant(ms: seq<Exposure>, ns: seq<Exposure>)
    requires multiset(ms) == multiset(ns)
    ensures OneProduct(ms) == OneProduct(ns)
    ensures OneProduct(ms) ==> ms[0].productId == ns[0].productId
  {
    SameLength(ms, ns);
    assert forall e :: e in ms <==> e in multiset(ms);
    assert forall e :: e in ns <==> e in multiset(ns);
    if ms != [] {
      assert ms[0] in ms && ns[0] in ns;
    }
  }

  /** The order in which exposures are listed never shows in a mapping. */
  lemma MapPointPermutationInvariant(es: seq<Exposure>, fs: seq<Exposure>, p: Point, videoTime: nat)
    requires UniqueIds(es) && multiset(es) == multiset(fs)
    ensures MapPoint(es, p, videoTime) == MapPoint(fs, p, videoTime)
  {
    var ms, ns := Matches(es, p, videoTime), Matches(fs, p, videoTime);
    assert multiset(ms) == multiset(ns) by {
      forall e ensures multiset(ms)[e] == multiset(ns)[e] {
        MatchesElements(es, p, videoTime, e);
        MatchesElements(fs, p, videoTime, e);
      }
    }
    SameLength(ms, ns);
    OneProductPermutationInvariant(ms, ns);
    assert Sort(ExposureLess, ms) == Sort(ExposureLess, ns) by {
      MatchesAre(es, p, videoTime);
      ExposureOrderTotal(ms, es);
      SortPermutationInvariant(ExposureLess, ms, ns);
    }
  }

  lemma MapFramePermutationInvariant(frame: Frame, m: Metadata, exposures: seq<Exposure>)
    requires frame.Valid() && UniqueIds(m.exposures) && multiset(exposures) == multiset(m.exposures)
    ensures MapFrame(frame, m.(exposures := exposures)) == MapFrame(frame, m)
  {
    if frame.attention.value.Some? && frame.attention.value.value.point.Some? {
      MapPointPermutationInvariant(m.exposures, exposures, frame.attention.value.value.point.value, frame.videoTime);
    }
  }
}
