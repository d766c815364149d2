/**
 A session on the source path whose 33 source AOIs all have a primary colour of their own: hitting each of
 them once is more than the evidence's data model holds.
 */
module Gallery {
  import opened Common
  import opened Geometry
  import opened Observations
  import opened SourceAoi
  import opened Ingestion
  import opened Confluence
  import opened EvidenceSummary
  import opened SourceEvidence
  import opened Snapshots
  import opened Gate
  import opened Completion
  import opened Grounding
  import opened CompletionFacts
  import opened AcceptedSeries
  import opened Witnesses

  const SHOWN := 33

  function NumberedId(i: nat): string {
    "p" + Padded(i, 2)
  }

  function Colour(i: nat): string {
    "c" + Padded(i, 2)
  }

  function Look(i: nat): Features {
    Features(Colour(i), "black", "tote", "tote_bag", ["solid"], [])
  }

  function Piece(i: nat): Definition {
    Definition(SignalName(i), [SignalName(i) + "."], Look(i))
  }

  /** Piece `i` is on display during millisecond `i` only. */
  function Display(i: nat): Bound {
    Bound(ManifestExposure(SignalName(i) + ".front", None, i, i + 1, TRIANGLE), Piece(i))
  }

  function Pieces(): seq<Definition> {
    seq(SHOWN, i requires 0 <= i < SHOWN => Piece(i))
  }

  function Displays(): seq<Bound> {
    seq(SHOWN, i requires 0 <= i < SHOWN => Display(i))
  }

  function Catalog(): seq<Product> {
    seq(10, i requires 0 <= i < 10 => Product(NumberedId(i), ["backpack", "bold", "boston"]))
  }

  function Profiles(): seq<MatchingProduct> {
    seq(10, i requires 0 <= i < 10 => MatchingProduct(NumberedId(i), Look(i), ["bold"]))
  }

  function Museum(): SessionContext {
    SessionContext("s1", "v1", "m1", "c1", Catalog(), None,
                   Some(SourceMetadata("v1", "m1", "x1", "t1", true, Pieces())), Displays(), Some(Profiles()), false)
  }

  function Visit(): seq<Frame> {
    seq(SHOWN, i requires 0 <= i < SHOWN =>
      Frame(NumberedId(i), i, i as real, 0.0, i, 0, LOOKED, SEEN, Missing(), Missing()))
  }

  // ----- The session is in order -----

  lemma Numbered(prefix: string, i: nat, j: nat)
    requires i < 100 && j < 100 && |prefix| == 1 && prefix + Padded(i, 2) == prefix + Padded(j, 2)
    ensures i == j
  {
    assert (prefix + Padded(i, 2))[1..] == Padded(i, 2) && (prefix + Padded(j, 2))[1..] == Padded(j, 2);
    assert Pow10(2) == 10 * (10 * Pow10(0));
    PaddedInjective(i, j, 2);
  }

  lemma IdsDiffer(i: nat, j: nat)
    requires i < j < 100
    ensures NumberedId(i) != NumberedId(j) && Colour(i) != Colour(j) && SignalName(i) != SignalName(j)
  {
    NamesDiffer(i, j);
    if NumberedId(i) == NumberedId(j) {
      Numbered("p", i, j);
    }
    if Colour(i) == Colour(j) {
      Numbered("c", i, j);
    }
  }

  lemma LookIsValid(i: nat)
    ensures Look(i).Valid()
  {
    hide Colour;
  }

  lemma PiecesValid()
    ensures Museum().source.value.Valid()
    ensures forall i, j :: 0 <= i < j < SHOWN ==> Pieces()[i].sourceId != Pieces()[j].sourceId
  {
    hide Look, SignalName, Features.Valid;
    var ps := Pieces();
    forall i, j | 0 <= i < j < SHOWN ensures ps[i].sourceId != ps[j].sourceId {
      IdsDiffer(i, j);
    }
    forall d | d in ps ensures d.features.Valid() {
      var i :| 0 <= i < SHOWN && ps[i] == d;
      LookIsValid(i);
    }
  }

  lemma CatalogValid()
    ensures forall i, j :: 0 <= i < j < 10 ==> Catalog()[i].productId != Catalog()[j].productId
    ensures forall p :: p in Catalog() ==> p.Valid()
  {
    hide NumberedId;
    forall i, j | 0 <= i < j < 10 ensures Catalog()[i].productId != Catalog()[j].productId {
      IdsDiffer(i, j);
    }
  }

  lemma ProfilesValid()
    ensures UniqueMatching(Profiles()) && forall m :: m in Profiles() ==> m.profile.Valid()
  {
    hide NumberedId, Look, Features.Valid;
    var ms := Profiles();
    forall i, j | 0 <= i < j < |ms| ensures ms[i].productId != ms[j].productId {
      IdsDiffer(i, j);
    }
    forall m | m in ms ensures m.profile.Valid() {
      var i :| 0 <= i < 10 && ms[i] == m;
      LookIsValid(i);
    }
  }

  lemma SameIds()
    ensures MatchingIds(Profiles()) == ProductIds(Catalog())
  {
    hide NumberedId, Look;
    var ms, ps := Profiles(), Catalog();
    forall m | m in ms ensures m.productId in ProductIds(ps) {
      var i :| 0 <= i < 10 && ms[i] == m;
      assert ps[i] in ps;
    }
    forall p | p in ps ensures p.productId in MatchingIds(ms) {
      var i :| 0 <= i < 10 && ps[i] == p;
      assert ms[i] in ms;
    }
  }

  lemma DisplaysBound()
    ensures SourceBound(Museum().source.value, Displays())
  {
    hide SourceMetadata.Valid, Piece, SignalName;
    PiecesValid();
    var ps, bs := Pieces(), Displays();
    forall b | b in bs ensures b.definition in ps {
      var i :| 0 <= i < SHOWN && bs[i] == b;
      assert ps[i] in ps;
    }
  }

  lemma MuseumIsValid()
    ensures ContextValid(Museum())
  {
    hide Product.Valid, Features.Valid, Catalog, Profiles, Pieces, Displays, SourceBound, UniqueMatching, MatchingIds, ProductIds;
    CatalogValid();
    ProfilesValid();
    SameIds();
    DisplaysBound();
    CatalogSizes();
  }

  lemma CatalogSizes()
    ensures |Catalog()| == 10 && |Profiles()| == 10
  {
  }

  lemma VisitFrame(i: nat)
    requires i < SHOWN
    ensures |Visit()| == SHOWN && Visit()[i].Valid() && Admissible(Museum(), Visit()[i])
  {
    hide NumberedId, Pieces, Displays, Catalog, Profiles;
    var f := Visit()[i];
    assert f.gaze == LOOKED && f.attention == SEEN && f.expression == Missing() && f.derived == Missing();
    assert f.capturedAt == i as real && f.sessionOffset == 0.0;
    assert SEEN.value.value.Valid();
  }

  lemma VisitIsSeries()
    ensures Series(Museum(), Visit()) && |Visit()| == SHOWN
    ensures forall o :: o in Visit() ==> o.Valid()
  {
    hide NumberedId, Museum, Frame.Valid, Admissible;
    var os := Visit();
    forall i | 0 <= i < SHOWN ensures os[i].Valid() && Admissible(Museum(), os[i]) {
      VisitFrame(i);
    }
    forall i, j | 0 <= i < j < SHOWN ensures os[i].FrameKey() != os[j].FrameKey() {
      IdsDiffer(i, j);
    }
  }

  // ----- Every frame hits one piece alone -----

  lemma VisitHits(i: nat)
    requires i < SHOWN
    ensures HitsOnly(Visit()[i], Displays(), SignalName(i))
  {
    hide NumberedId, SignalName, Piece, InPolygon;
    InTriangle();
    var f, bs := Visit()[i], Displays();
    assert bs[i] in bs && Touches(bs[i], PLACE, f.videoTime);
    forall b | b in bs && Touches(b, PLACE, f.videoTime) ensures b == Display(i) {
      var k :| 0 <= k < SHOWN && bs[k] == b;
    }
    PieceName(i);
  }

  lemma PieceName(i: nat)
    ensures Piece(i).sourceId == SignalName(i) && Piece(i).features.colorPrimary == Colour(i)
  {
  }

  lemma InTriangle()
    ensures InPolygon(PLACE, TRIANGLE)
  {
    PlaceIsInside();
  }

  lemma {:induction false} HitsListed(cache: map<Key, seq<Hit>>, fs: seq<Frame>, n: nat, i: nat)
    requires i < n <= |fs| && SingleSource(cache, fs[i]).Some?
    ensures SingleSource(cache, fs[i]).value in SourcesHit(cache, fs, n)
  {
    hide SingleSource;
    if i < n - 1 {
      HitsListed(cache, fs, n - 1, i);
    }
  }

  /** A definition is found by its id when ids are unique. */
  lemma PieceFound(i: nat)
    requires i < SHOWN && Has(Pieces(), SignalName(i))
    ensures DefinitionOf(Pieces(), SignalName(i)) == Piece(i)
  {
    hide SignalName, Look, Features.Valid, SourceMetadata.Valid;
    PiecesValid();
    var d := DefinitionOf(Pieces(), SignalName(i));
    var k :| 0 <= k < SHOWN && Pieces()[k] == d;
    assert Pieces()[i].sourceId == SignalName(i);
  }

  lemma ColourSeen(b: Buffer, i: nat)
    requires i < SHOWN && HitsKnown(b.sourceHits, Pieces())
    requires SingleSource(b.sourceHits, Visit()[i]) == Some(SignalName(i))
    ensures Colour(i) in HitValues(b.sourceHits, Visit(), Pieces(), ColorPrimary)
  {
    hide SignalName, Pieces, Visit, SingleSource, HitsKnown, SourcesHit, Colour, Piece;
    VisitLength();
    HitsListed(b.sourceHits, Visit(), SHOWN, i);
    var id := SignalName(i);
    assert id in HitIds(b.sourceHits, Visit(), Pieces());
    PieceFound(i);
    PieceName(i);
    assert Colour(i) in ColorPrimary(DefinitionOf(Pieces(), id).features);
  }

  lemma VisitLength()
    ensures |Visit()| == SHOWN
  {
  }

  lemma ManyColours(values: set<string>)
    requires forall i: nat :: i < SHOWN ==> Colour(i) in values
    ensures |values| > 32
  {
    hide Colour;
    var all := seq(SHOWN, i requires 0 <= i < SHOWN => Colour(i));
    forall i, j | 0 <= i < j < SHOWN ensures all[i] != all[j] {
      IdsDiffer(i, j);
    }
    DistinctCount(all);
    SmallSubset(ValueSet(all), values);
  }

  /** 33 frames, each on a piece of its own colour: completion escapes in every variant. */
  lemma TooManyColoursEscape(settings: Settings, modelId: string, accepted: Acceptance) returns (b: Buffer)
    ensures BatchOf(Visit()).Valid() && Accepts(Museum(), EmptyBuffer, BatchOf(Visit()), b)
    ensures Snapshotted(Museum(), b, Visit())
    ensures Prepare(Museum(), Visit(), b.sourceHits, settings, modelId, accepted).Refused?
  {
    hide Series, Accepts, BufferInv, Enumerates, Frame.Valid, Admissible, ContextValid, HitValues, SingleSource, HitsKnown,
      HitsOnly, SignalName, Colour, Pieces, Displays, Visit, Catalog, Profiles, AggregationRefused, Prepare;
    MuseumIsValid();
    VisitIsSeries();
    b := SeriesAccepted(Museum(), Visit());
    SeriesOrdered(Museum(), Visit(), b, Visit());
    forall i: nat | i < SHOWN ensures Colour(i) in HitValues(b.sourceHits, Visit(), Pieces(), ColorPrimary) {
      VisitHits(i);
      VisitSingle(b, i);
      ColourSeen(b, i);
    }
    ManyColours(HitValues(b.sourceHits, Visit(), Pieces(), ColorPrimary));
    AggregationTotal(Museum(), b, Visit(), settings, modelId, accepted);
  }

  lemma VisitSingle(b: Buffer, i: nat)
    requires i < SHOWN && BufferInv(Museum(), b) && Enumerates(Visit(), b.observations)
    requires HitsOnly(Visit()[i], Displays(), SignalName(i))
    ensures SingleSource(b.sourceHits, Visit()[i]) == Some(SignalName(i))
  {
    hide ResolveHits, HitsOnly, OffsetsForward, VideoTimeForward, LastVideoTimes, BatchTables, Indexed, HighestEpoch,
      Admissible, SignalName, Displays, Visit, Pieces, Catalog, Profiles;
    VisitLength();
    var f := Visit()[i];
    assert f in Visit() && f.FrameKey() in b.observations;
    SingleHitMeans(f, Displays(), SignalName(i));
  }
}
