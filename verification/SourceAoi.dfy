/** Approved source AOIs (`source_aoi.py`): binding exposures to definitions, and hit testing. */
module SourceAoi {
  import opened Common
  import opened Geometry
  import opened Observations
  import opened Sorting

  const COLOR_FAMILIES := {"beige", "black", "brown", "metallic", "pink", "unknown"}
  const SILHOUETTES := {"backpack", "boston", "east_west_shoulder", "pouch", "shopper", "tambourine", "tote",
                        "vanity_case", "weekender"}
  const CATEGORY_TYPES := {"backpack", "crossbody_bag", "pouch", "shoulder_bag", "top_handle_bag", "tote_bag",
                           "travel_bag", "vanity_case"}
  const PATTERNS := {"crystal", "grained_leather", "monogram", "solid", "studded", "unknown"}
  const BAG_ACCESSORIES := {"front_pocket", "lock", "logo_plaque", "shoulder_strap", "side_studs", "tag",
                            "top_handle", "zipper"}

  /** `VisualFeaturesV1`: four single-valued features and two lists without repetition */
  datatype Features = Features(colorPrimary: string, colorFamily: string, silhouette: string, categoryType: string,
                               patterns: seq<string>, accessories: seq<string>)
  {
    /** Every feature but the primary colour comes from a closed vocabulary. */
    predicate Valid() {
      && colorFamily in COLOR_FAMILIES && silhouette in SILHOUETTES && categoryType in CATEGORY_TYPES
      && (forall v :: v in patterns ==> v in PATTERNS) && (forall v :: v in accessories ==> v in BAG_ACCESSORIES)
      && Distinct(patterns) && Distinct(accessories)
    }
  }

  datatype Definition = Definition(sourceId: string, prefixes: seq<string>, features: Features)

  datatype ManifestExposure = ManifestExposure(exposureId: string, part: Option<string>, startMs: nat, endMs: nat,
                                               points: seq<Point>)

  datatype Manifest = Manifest(videoId: string, version: string, exposures: seq<ManifestExposure>)

  datatype SourceMetadata = SourceMetadata(videoId: string, manifestVersion: string, metadataVersion: string,
                                           taxonomyVersion: string, approved: bool, sources: seq<Definition>)
  {
    /** `source_ids_and_prefixes_are_unique`, for the source ids */
    predicate Valid() {
      && (forall i, j :: 0 <= i < j < |sources| ==> sources[i].sourceId != sources[j].sourceId)
      && (forall d :: d in sources ==> d.features.Valid())
    }
  }

  datatype Bound = Bound(exposure: ManifestExposure, definition: Definition)

  datatype Hit = Hit(sourceId: string, exposureIds: seq<string>, parts: set<string>, features: Features)

  predicate Distinct<T(==)>(s: seq<T>) {
    forall i, j :: 0 <= i < j < |s| ==> s[i] != s[j]
  }

  // ----- Binding -----

  predicate Covers(d: Definition, exposureId: string) {
    exists prefix :: prefix in d.prefixes && prefix <= exposureId
  }

  function Covering(ds: seq<Definition>, exposureId: string): seq<Definition> {
    if ds == [] then []
    else (if Covers(ds[0], exposureId) then [ds[0]] else []) + Covering(ds[1..], exposureId)
  }

  lemma {:induction false} CoveringIs(ds: seq<Definition>, exposureId: string)
    ensures forall d :: d in Covering(ds, exposureId) <==> d in ds && Covers(d, exposureId)
  {
    if ds != [] {
      CoveringIs(ds[1..], exposureId);
    }
  }

  /** One definition and no other covers the exposure. */
  predicate BoundOnce(ds: seq<Definition>, exposureId: string) {
    && (exists d :: d in ds && Covers(d, exposureId))
    && forall d, e :: d in ds && e in ds && Covers(d, exposureId) && Covers(e, exposureId) ==> d == e
  }

  lemma {:induction false} CoveringDistinct(ds: seq<Definition>, exposureId: string)
    requires Distinct(ds)
    ensures Distinct(Covering(ds, exposureId))
  {
    if ds != [] {
      assert ds == [ds[0]] + ds[1..];
      CoveringDistinct(ds[1..], exposureId);
      CoveringIs(ds[1..], exposureId);
      assert ds[0] !in ds[1..];
    }
  }

  lemma OneElement<T>(s: seq<T>)
    requires Distinct(s)
    ensures |s| == 1 <==> (exists x :: x in s) && forall x, y :: x in s && y in s ==> x == y
  {
    if |s| > 1 {
      assert s[0] in s && s[1] in s && s[0] != s[1];
    }
    if s != [] {
      assert s[0] in s;
    }
  }

  lemma CoveringOnce(ds: seq<Definition>, exposureId: string)
    requires Distinct(ds)
    ensures |Covering(ds, exposureId)| == 1 <==> BoundOnce(ds, exposureId)
  {
    CoveringDistinct(ds, exposureId);
    CoveringIs(ds, exposureId);
    OneElement(Covering(ds, exposureId));
  }

  datatype BindError = ManifestMismatch | AmbiguousOrUnboundExposure(exposureId: string)

  /**
   `bind_source_aois`: succeeds exactly when the revisions match and every exposure is covered by one
   and only one definition; then binds each exposure to that definition.
   */
  method BindSourceAois(manifest: Manifest, metadata: SourceMetadata) returns (r: Result<seq<Bound>, BindError>)
    requires metadata.Valid()
    ensures r.Ok? <==>
      && metadata.videoId == manifest.videoId && metadata.manifestVersion == manifest.version
      && forall e :: e in manifest.exposures ==> BoundOnce(metadata.sources, e.exposureId)
    ensures r.Ok? ==> |r.value| == |manifest.exposures|
    ensures r.Ok? ==> forall i :: 0 <= i < |r.value| ==>
      && r.value[i].exposure == manifest.exposures[i]
      && r.value[i].definition in metadata.sources
      && Covers(r.value[i].definition, manifest.exposures[i].exposureId)
  {
    if metadata.videoId != manifest.videoId || metadata.manifestVersion != manifest.version {
      return Err(ManifestMismatch);
    }
    var bindings: seq<Bound> := [];
    for k := 0 to |manifest.exposures|
      invariant |bindings| == k
      invariant forall i :: 0 <= i < k ==> BoundOnce(metadata.sources, manifest.exposures[i].exposureId)
      invariant forall i :: 0 <= i < k ==>
        && bindings[i].exposure == manifest.exposures[i]
        && bindings[i].definition in metadata.sources
        && Covers(bindings[i].definition, manifest.exposures[i].exposureId)
    {
      var exposure := manifest.exposures[k];
      var matches := Covering(metadata.sources, exposure.exposureId);
      CoveringIs(metadata.sources, exposure.exposureId);
      CoveringOnce(metadata.sources, exposure.exposureId);
      if |matches| != 1 {
        return Err(AmbiguousOrUnboundExposure(exposure.exposureId));
      }
      assert matches[0] in matches;
      bindings := bindings + [Bound(exposure, matches[0])];
    }
    r := Ok(bindings);
  }

  // ----- Hit testing -----

  predicate Touches(b: Bound, p: Point, videoTime: nat) {
    b.exposure.startMs <= videoTime < b.exposure.endMs && InPolygon(p, b.exposure.points)
  }

  function Touched(bs: seq<Bound>, p: Point, videoTime: nat): seq<Bound> {
    if bs == [] then []
    else (if Touches(bs[0], p, videoTime) then [bs[0]] else []) + Touched(bs[1..], p, videoTime)
  }

  lemma {:induction false} TouchedIs(bs: seq<Bound>, p: Point, videoTime: nat)
    ensures forall b :: b in Touched(bs, p, videoTime) <==> b in bs && Touches(b, p, videoTime)
  {
    if bs != [] {
      TouchedIs(bs[1..], p, videoTime);
    }
  }

  /** The bindings of one group, in their original order. */
  function Group(bs: seq<Bound>, sourceId: string): seq<Bound> {
    if bs == [] then []
    else (if bs[0].definition.sourceId == sourceId then [bs[0]] else []) + Group(bs[1..], sourceId)
  }

  /** The groups' keys in order of first appearance. */
  function GroupKeys(bs: seq<Bound>): (keys: seq<string>)
    ensures forall k :: k in keys <==> exists b :: b in bs && b.definition.sourceId == k
    ensures Distinct(keys)
  {
    if bs == [] then []
    else
      var init := bs[..|bs| - 1];
      var keys, k := GroupKeys(init), bs[|bs| - 1].definition.sourceId;
      assert bs == init + [bs[|bs| - 1]];
      if k in keys then keys else keys + [k]
  }

  function ExposureIds(bs: seq<Bound>): seq<string> {
    seq(|bs|, i requires 0 <= i < |bs| => bs[i].exposure.exposureId)
  }

  function HitOf(sourceId: string, group: seq<Bound>): Hit
    requires group != []
  {
    Hit(sourceId, Sort(StringLess, ExposureIds(group)),
        set b | b in group && b.exposure.part.Some? :: b.exposure.part.value,
        group[0].definition.features)
  }

  lemma {:induction false} GroupIs(bs: seq<Bound>, sourceId: string)
    ensures forall b :: b in Group(bs, sourceId) <==> b in bs && b.definition.sourceId == sourceId
  {
    if bs != [] {
      GroupIs(bs[1..], sourceId);
    }
  }

  function HitsOf(touched: seq<Bound>, keys: seq<string>): (hits: seq<Hit>)
    requires forall k :: k in keys ==> k in GroupKeys(touched)
    ensures |hits| == |keys| && forall i :: 0 <= i < |keys| ==> hits[i].sourceId == keys[i]
  {
    if keys == [] then []
    else
      assert Group(touched, keys[0]) != [] by {
        assert keys[0] in GroupKeys(touched);
        GroupIs(touched, keys[0]);
      }
      [HitOf(keys[0], Group(touched, keys[0]))] + HitsOf(touched, keys[1..])
  }

  /** `resolve_source_aoi_hits` */
  function ResolveHits(frame: Frame, bindings: seq<Bound>): seq<Hit>
    requires frame.Valid()
  {
    if frame.attention.value.None? || frame.attention.value.value.outsideVideo then []
    else
      var touched := Touched(bindings, frame.attention.value.value.point.value, frame.videoTime);
      var keys := Sort(StringLess, GroupKeys(touched));
      assert forall k :: k in keys ==> k in GroupKeys(touched) by {
        SortMembers(StringLess, GroupKeys(touched));
      }
      HitsOf(touched, keys)
  }

  /** The frame's point lies in a bound exposure of `sourceId`, and in none of any other source AOI. */
  predicate HitsOnly(frame: Frame, bindings: seq<Bound>, sourceId: string) {
    && frame.attention.value.Some? && !frame.attention.value.value.outsideVideo
    && frame.attention.value.value.point.Some?
    && var p := frame.attention.value.value.point.value;
      && (exists b :: b in bindings && Touches(b, p, frame.videoTime))
      && forall b :: b in bindings && Touches(b, p, frame.videoTime) ==> b.definition.sourceId == sourceId
  }

  lemma OneGroup(touched: seq<Bound>, id: string)
    ensures |GroupKeys(touched)| == 1 && GroupKeys(touched)[0] == id <==>
      && (exists b :: b in touched)
      && forall b :: b in touched ==> b.definition.sourceId == id
  {
    var keys := GroupKeys(touched);
    OneElement(keys);
    if touched != [] {
      assert touched[0] in touched && touched[0].definition.sourceId in keys;
    }
    if keys != [] {
      assert keys[0] in keys;
    }
  }

  lemma SortSingle(keys: seq<string>, id: string)
    ensures |Sort(StringLess, keys)| == 1 && Sort(StringLess, keys)[0] == id <==> |keys| == 1 && keys[0] == id
  {
    SortMembers(StringLess, keys);
    SortElements(StringLess, keys);
    if |keys| == 1 {
      assert keys[0] in keys && keys[0] in Sort(StringLess, keys);
    }
  }

  /** A frame counts as a single hit of a source AOI exactly when its point meets that AOI alone. */
  lemma SingleHitMeans(frame: Frame, bindings: seq<Bound>, sourceId: string)
    requires frame.Valid()
    ensures var hits := ResolveHits(frame, bindings);
      |hits| == 1 && hits[0].sourceId == sourceId <==> HitsOnly(frame, bindings, sourceId)
  {
    if frame.attention.value.Some? && !frame.attention.value.value.outsideVideo {
      var p := frame.attention.value.value.point.value;
      var touched := Touched(bindings, p, frame.videoTime);
      TouchedIs(bindings, p, frame.videoTime);
      SortSingle(GroupKeys(touched), sourceId);
      OneGroup(touched, sourceId);
    }
  }
}
