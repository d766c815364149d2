/**
 The in-process vision gateway (`vision_gateway/gateway.py`): joining gaze and face samples of one frame,
 with the capture-time fallback, and the bookkeeping of offered frames.
 */
module Joiner {
  import opened Common
  import opened Sorting

  datatype Gaze = Gaze(frameId: string, sessionId: string, epoch: nat, capturedAt: real)

  datatype Face = Face(frameId: string, sessionId: string, epoch: nat, capturedAt: real)

  datatype TimedFace = TimedFace(sample: Face, latencyMs: real)

  datatype MatchedBy = ByFrameId | ByCaptureTime

  datatype Joined = Joined(gaze: Gaze, face: Face, matchedBy: MatchedBy, latencyMs: real)

  type GazeStore = map<string, Gaze>
  type FaceStore = map<string, TimedFace>

  datatype Samples = Samples(gaze: GazeStore, face: FaceStore) {
    /** Samples are stored under their frame id, and no frame has both of its samples stored. */
    ghost predicate Valid() {
      && gaze.Keys !! face.Keys
      && (forall k :: k in gaze ==> gaze[k].frameId == k)
      && (forall k :: k in face ==> face[k].sample.frameId == k)
    }
  }

  datatype Event = PushedGaze(gazeSample: Gaze) | PushedFace(faceSample: Face, latencyMs: real) | Flush | Cleared

  function Gap(g: Gaze, f: Face): real {
    Abs(f.capturedAt - g.capturedAt)
  }

  /** Same session, same epoch, and close enough in time. */
  predicate Eligible(tolerance: real, g: Gaze, f: Face) {
    f.sessionId == g.sessionId && f.epoch == g.epoch && Gap(g, f) <= tolerance
  }

  predicate EligiblePair(tolerance: real, gaze: GazeStore, face: FaceStore, gk: string, fk: string) {
    gk in gaze && fk in face && Eligible(tolerance, gaze[gk], face[fk].sample)
  }

  /** The pair has the smallest gap of all eligible pairs, and the smallest gaze key among those. */
  ghost predicate Nearest(tolerance: real, gaze: GazeStore, face: FaceStore, gk: string, fk: string) {
    && EligiblePair(tolerance, gaze, face, gk, fk)
    && forall a, b :: EligiblePair(tolerance, gaze, face, a, b) ==>
      && Gap(gaze[gk], face[fk].sample) <= Gap(gaze[a], face[b].sample)
      && (Gap(gaze[gk], face[fk].sample) == Gap(gaze[a], face[b].sample) ==> !StringLess(a, gk))
  }

  /** What one call on the joiner may do to the stored samples, and the pair it answers with. */
  ghost predicate Stepped(tolerance: real, s: Samples, e: Event, pair: Option<Joined>, t: Samples) {
    match e
    case PushedGaze(sample) =>
      var id := sample.frameId;
      if id in s.face then
        && pair == Some(Joined(sample, s.face[id].sample, ByFrameId, s.face[id].latencyMs))
        && t == Samples(s.gaze, s.face - {id})
      else
        pair.None? && t == Samples(s.gaze[id := sample], s.face)
    case PushedFace(sample, latency) =>
      var id := sample.frameId;
      if id in s.gaze then
        && pair == Some(Joined(s.gaze[id], sample, ByFrameId, latency))
        && t == Samples(s.gaze - {id}, s.face)
      else
        pair.None? && t == Samples(s.gaze, s.face[id := TimedFace(sample, latency)])
    case Flush =>
      if pair.None? then
        t == s && forall a, b :: !EligiblePair(tolerance, s.gaze, s.face, a, b)
      else
        var gk, fk := pair.value.gaze.frameId, pair.value.face.frameId;
        && Nearest(tolerance, s.gaze, s.face, gk, fk)
        && pair.value == Joined(s.gaze[gk], s.face[fk].sample, ByCaptureTime, s.face[fk].latencyMs)
        && t == Samples(s.gaze - {gk}, s.face - {fk})
    case Cleared => pair.None? && t == Samples(map[], map[])
  }

  /** `min` over the eligible faces of one gaze sample, in whatever order the dictionary yields them */
  method NearestFace(tolerance: real, g: Gaze, face: FaceStore) returns (key: Option<string>)
    ensures key.None? <==> forall k :: k in face ==> !Eligible(tolerance, g, face[k].sample)
    ensures key.Some? ==>
      && key.value in face && Eligible(tolerance, g, face[key.value].sample)
      && forall k :: k in face && Eligible(tolerance, g, face[k].sample) ==>
        Gap(g, face[key.value].sample) <= Gap(g, face[k].sample)
  {
    key := None;
    var left := face.Keys;
    while left != {}
      invariant left <= face.Keys
      invariant key.None? <==> forall k :: k in face && k !in left ==> !Eligible(tolerance, g, face[k].sample)
      invariant key.Some? ==>
        && key.value in face && Eligible(tolerance, g, face[key.value].sample)
        && forall k :: k in face && k !in left && Eligible(tolerance, g, face[k].sample) ==>
          Gap(g, face[key.value].sample) <= Gap(g, face[k].sample)
      decreases |left|
    {
      var k :| k in left;
      left := left - {k};
      if Eligible(tolerance, g, face[k].sample) && (key.None? || Gap(g, face[k].sample) < Gap(g, face[key.value].sample)) {
        key := Some(k);
      }
    }
  }

  /** The loop of `flush_nearest` */
  method NearestPair(tolerance: real, gaze: GazeStore, face: FaceStore) returns (best: Option<(string, string)>)
    ensures best.None? <==> forall a, b :: !EligiblePair(tolerance, gaze, face, a, b)
    ensures best.Some? ==> Nearest(tolerance, gaze, face, best.value.0, best.value.1)
  {
    best := None;
    var left := gaze.Keys;
    while left != {}
      invariant left <= gaze.Keys
      invariant Scanned(tolerance, gaze, face, left, best)
      decreases |left|
    {
      hide Scanned, Gap, StringLess, Eligible;
      var gk :| gk in left;
      var fk := NearestFace(tolerance, gaze[gk], face);
      ScanOne(tolerance, gaze, face, left, best, gk, fk);
      left := left - {gk};
      if fk.Some? && (best.None? || Before(gaze, face, gk, fk.value, best.value.0, best.value.1)) {
        best := Some((gk, fk.value));
      }
    }
  }

  class ObservationJoiner {
    const toleranceMs: real
    var gaze: GazeStore
    var face: FaceStore

    constructor (toleranceMs: real)
      requires toleranceMs >= 0.0
      ensures Valid() && gaze == map[] && face == map[] && this.toleranceMs == toleranceMs
    {
      this.toleranceMs, gaze, face := toleranceMs, map[], map[];
    }

    ghost predicate Valid()
      reads this
    {
      toleranceMs >= 0.0 && Samples(gaze, face).Valid()
    }

    /** `push_gaze`: pairs with the stored face of the same frame, or waits for it. */
    method PushGaze(sample: Gaze) returns (joined: Option<Joined>)
      requires Valid()
      modifies this`gaze, this`face
      ensures Valid()
      ensures Stepped(toleranceMs, old(Samples(gaze, face)), PushedGaze(sample), joined, Samples(gaze, face))
    {
      joined := None;
      if sample.frameId in face {
        var match_ := face[sample.frameId];
        face := face - {sample.frameId};
        joined := Some(Joined(sample, match_.sample, ByFrameId, match_.latencyMs));
        return;
      }
      gaze := gaze[sample.frameId := sample];
    }

    method PushFace(sample: Face, latencyMs: real) returns (joined: Option<Joined>)
      requires Valid()
      modifies this`gaze, this`face
      ensures Valid()
      ensures Stepped(toleranceMs, old(Samples(gaze, face)), PushedFace(sample, latencyMs), joined, Samples(gaze, face))
    {
      joined := None;
      if sample.frameId in gaze {
        var stored := gaze[sample.frameId];
        gaze := gaze - {sample.frameId};
        joined := Some(Joined(stored, sample, ByFrameId, latencyMs));
        return;
      }
      face := face[sample.frameId := TimedFace(sample, latencyMs)];
    }

      /** `flush_nearest`: the eligible pair of globally minimal gap, or nothing if none is eligible. */
    method FlushNearest() returns (joined: Option<Joined>)
      requires Valid()
      modifies this`gaze, this`face
      ensures Valid()
      ensures Stepped(toleranceMs, old(Samples(gaze, face)), Flush, joined, Samples(gaze, face))
    {
      var best := NearestPair(toleranceMs, gaze, face);
      if best.None? {
        return None;
      }
      var (gk, fk) := best.value;
      joined := Some(Joined(gaze[gk], face[fk].sample, ByCaptureTime, face[fk].latencyMs));
      gaze := gaze - {gk};
      face := face - {fk};
    }

    method Clear()
      requires Valid()
      modifies this`gaze, this`face
      ensures Valid()
      ensures Stepped(toleranceMs, old(Samples(gaze, face)), Cleared, None, Samples(gaze, face))
    {
      gaze, face := map[], map[];
    }
  }

  /** `candidate[:3] < best[:3]` */
  predicate Before(gaze: GazeStore, face: FaceStore, gk: string, fk: string, bestG: string, bestF: string)
    requires gk in gaze && bestG in gaze && fk in face && bestF in face
  {
    var a, b := Gap(gaze[gk], face[fk].sample), Gap(gaze[bestG], face[bestF].sample);
    a < b || (a == b && (StringLess(gk, bestG) || (gk == bestG && StringLess(fk, bestF))))
  }

  /** The best pair among the gaze samples looked at so far. */
  ghost predicate BestSoFar(tolerance: real, gaze: GazeStore, face: FaceStore, left: set<string>, gk: string, fk: string) {
    && gk !in left && EligiblePair(tolerance, gaze, face, gk, fk)
    && forall a, b :: a !in left && EligiblePair(tolerance, gaze, face, a, b) ==>
      && Gap(gaze[gk], face[fk].sample) <= Gap(gaze[a], face[b].sample)
      && (Gap(gaze[gk], face[fk].sample) == Gap(gaze[a], face[b].sample) ==> !StringLess(a, gk))
  }

  ghost predicate Scanned(tolerance: real, gaze: GazeStore, face: FaceStore, left: set<string>, best: Option<(string, string)>) {
    match best
    case None => forall a, b :: a !in left ==> !EligiblePair(tolerance, gaze, face, a, b)
    case Some(p) => BestSoFar(tolerance, gaze, face, left, p.0, p.1)
  }

  lemma ScanOne(tolerance: real, gaze: GazeStore, face: FaceStore, left: set<string>, best: Option<(string, string)>,
                gk: string, fk: Option<string>)
    requires gk in left && gk in gaze && Scanned(tolerance, gaze, face, left, best)
    requires fk.None? <==> forall k :: k in face ==> !Eligible(tolerance, gaze[gk], face[k].sample)
    requires fk.Some? ==>
      && fk.value in face && Eligible(tolerance, gaze[gk], face[fk.value].sample)
      && forall k :: k in face && Eligible(tolerance, gaze[gk], face[k].sample) ==>
        Gap(gaze[gk], face[fk.value].sample) <= Gap(gaze[gk], face[k].sample)
    ensures best.Some? ==> best.value.0 in gaze && best.value.1 in face
    ensures Scanned(tolerance, gaze, face, left - {gk},
                    if fk.Some? && (best.None? || Before(gaze, face, gk, fk.value, best.value.0, best.value.1))
                    then Some((gk, fk.value)) else best)
  {
    hide Gap, StringLess, Eligible;
    var rest := left - {gk};
    assert rest + {gk} == left;
    if fk.Some? {
      if best.None? || Before(gaze, face, gk, fk.value, best.value.0, best.value.1) {
        BestImproves(tolerance, gaze, face, rest, best, gk, fk.value);
      } else {
        BestStays(tolerance, gaze, face, rest, best.value.0, best.value.1, gk, fk.value);
      }
    }
  }

  lemma BestImproves(tolerance: real, gaze: GazeStore, face: FaceStore, left: set<string>,
                     best: Option<(string, string)>, gk: string, fk: string)
    requires gk !in left && EligiblePair(tolerance, gaze, face, gk, fk)
    requires forall k :: k in face && Eligible(tolerance, gaze[gk], face[k].sample) ==>
               Gap(gaze[gk], face[fk].sample) <= Gap(gaze[gk], face[k].sample)
    requires best.None? ==> forall a, b :: a in gaze && a !in left + {gk} ==> !EligiblePair(tolerance, gaze, face, a, b)
    requires best.Some? ==> BestSoFar(tolerance, gaze, face, left + {gk}, best.value.0, best.value.1)
    requires best.Some? ==> Before(gaze, face, gk, fk, best.value.0, best.value.1)
    ensures BestSoFar(tolerance, gaze, face, left, gk, fk)
  {
    forall a, b | a !in left && EligiblePair(tolerance, gaze, face, a, b)
      ensures Gap(gaze[gk], face[fk].sample) <= Gap(gaze[a], face[b].sample)
      ensures Gap(gaze[gk], face[fk].sample) == Gap(gaze[a], face[b].sample) ==> !StringLess(a, gk)
    {
      StringTotal(gk, gk);
      if a != gk {
        var g, f := best.value.0, best.value.1;
        if StringLess(a, gk) && StringLess(gk, g) {
          StringTransitive(a, gk, g);
        }
      }
    }
  }

  lemma BestStays(tolerance: real, gaze: GazeStore, face: FaceStore, left: set<string>,
                  g: string, f: string, gk: string, fk: string)
    requires gk !in left && EligiblePair(tolerance, gaze, face, gk, fk)
    requires forall k :: k in face && Eligible(tolerance, gaze[gk], face[k].sample) ==>
               Gap(gaze[gk], face[fk].sample) <= Gap(gaze[gk], face[k].sample)
    requires BestSoFar(tolerance, gaze, face, left + {gk}, g, f)
    requires !Before(gaze, face, gk, fk, g, f)
    ensures BestSoFar(tolerance, gaze, face, left, g, f)
  {
  }
}
