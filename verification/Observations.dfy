/**
 Frame observations as the store buffers them (`v2_models.FrameObservationV2`). Milliseconds and
 normalised coordinates are exact reals.
 */
module Observations {
  import opened Common
  import opened Geometry
  import opened Sorting

  /** A nullable field and its `_reason`. */
  datatype Modality<+V> = Modality(value: Option<V>, reason: Option<string>) {
    /** value-xor-reason */
    predicate Valid() {
      value.Some? <==> reason.None?
    }
  }

  datatype Gaze = Gaze(screen: Point, confidence: real, producerId: string, modelRevision: string, calibrationId: string)

  datatype Expression = Expression(scores: map<string, real>, quality: real, confidence: real,
                                   producerId: string, modelRevision: string, taxonomyVersion: string)

  datatype Candidate = Candidate(exposureId: string, productId: string, parentAoiId: Option<string>,
                                 specificityRank: nat, componentCode: string, visualTags: set<string>)

  datatype Attention = Attention(outsideVideo: bool, point: Option<Point>, confidence: real, producerId: string,
                                 modelRevision: string, manifestVersion: string, candidates: seq<Candidate>) {
    /** `preserve_coordinate_semantics` */
    predicate Valid() {
      if outsideVideo then point.None? && candidates == [] else point.Some?
    }
  }

  datatype SustainedAction = SustainedAction(signal: string, durationMs: real)

  const MAX_SUSTAINED := 64

  datatype DerivedExpression = DerivedExpression(scoreChanges: Option<map<string, real>>,
                                                 changeRates: Option<map<string, real>>, sustained: seq<SustainedAction>)
  {
    /** `changes_have_joint_presence` and the length bound. The two maps need not have the same keys. */
    predicate Valid() {
      (scoreChanges.Some? <==> changeRates.Some?) && |sustained| <= MAX_SUSTAINED
    }
  }

  /** What the evidence and the gate consult of `DerivedObservationV2`. */
  datatype Derived = Derived(movement: Option<(real, real)>, returnCandidate: Option<bool>,
                             expression: Option<DerivedExpression>)
  {
    predicate Valid() {
      expression.Some? ==> expression.value.Valid()
    }

    function ScoreChanges(): Option<map<string, real>> {
      if expression.Some? then expression.value.scoreChanges else None
    }
  }

  datatype Key = Key(epoch: nat, frameId: string)

  datatype Frame = Frame(
    frameId: string,
    sequence: nat,
    capturedAt: real,
    sessionOffset: real,
    videoTime: nat,
    epoch: nat,
    gaze: Modality<Gaze>,
    attention: Modality<Attention>,
    expression: Modality<Expression>,
    derived: Modality<Derived>)
  {
    /** What the closed data model guarantees of every parsed frame. */
    predicate Valid() {
      && capturedAt >= 0.0 && sessionOffset >= 0.0
      && gaze.Valid() && attention.Valid() && expression.Valid() && derived.Valid()
      && (attention.value.Some? ==> attention.value.value.Valid())
      && (derived.value.Some? ==> derived.value.value.Valid())
    }

    function FrameKey(): Key {
      Key(epoch, frameId)
    }
  }

  predicate SameContext(a: Frame, b: Frame) {
    && a.frameId == b.frameId && a.sequence == b.sequence
    && a.capturedAt == b.capturedAt && a.sessionOffset == b.sessionOffset
    && a.videoTime == b.videoTime && a.epoch == b.epoch
  }

  /** Analysis order: the key `(epoch, captured, sequence, frame_id)` used by every sort of frames. */
  predicate FrameLess(a: Frame, b: Frame) {
    if a.epoch != b.epoch then a.epoch < b.epoch
    else if a.capturedAt != b.capturedAt then a.capturedAt < b.capturedAt
    else if a.sequence != b.sequence then a.sequence < b.sequence
    else StringLess(a.frameId, b.frameId)
  }

  /** No two frames carry the same sequence number. */
  ghost predicate UniqueSequences(fs: multiset<Frame>) {
    forall a, b :: a in fs && b in fs && a.sequence == b.sequence ==> a == b
  }

  lemma FrameOrderTotal(fs: multiset<Frame>)
    requires UniqueSequences(fs)
    ensures TotalOn(FrameLess, fs)
  {
    forall a: Frame ensures !FrameLess(a, a) {
      StringTotal(a.frameId, a.frameId);
    }
    forall a: Frame, b: Frame, c: Frame | FrameLess(a, b) && FrameLess(b, c) ensures FrameLess(a, c) {
      if StringLess(a.frameId, b.frameId) && StringLess(b.frameId, c.frameId) {
        StringTransitive(a.frameId, b.frameId, c.frameId);
      }
    }
  }

  /** `_ordered` */
  function Ordered(frames: seq<Frame>): seq<Frame> {
    Sort(FrameLess, frames)
  }
}
