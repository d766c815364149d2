/**
 Ingestion of observation batches into one collecting session (`v2_store.py`): the partial merge of
 modalities, the atomic admission of a batch, and what any two accepted orders have in common.
 */
module Ingestion {
  import opened Common
  import opened Observations
  import Aoi = AoiMetadata
  import opened SourceAoi

  const MAX_BUFFERED_OBSERVATIONS := 512
  const MAX_BATCH_OBSERVATIONS := 256

  const CONTROLLED_TAGS := {"backpack", "bold", "boston", "classic", "compact", "crossbody", "daily", "evening", "hobo",
                            "leather", "lightweight", "minimal", "modern", "monogram", "neutral", "recycled_material",
                            "shoulder", "shopper", "soft", "spacious", "sporty", "structured", "tambourine", "top_handle",
                            "tote", "travel", "triangle", "weekender", "work"}

  datatype Product = Product(productId: string, controlledTags: seq<string>) {
    predicate Valid() {
      3 <= |controlledTags| <= 12 && Distinct(controlledTags) && forall t :: t in controlledTags ==> t in CONTROLLED_TAGS
    }
  }

  datatype MatchingProduct = MatchingProduct(productId: string, profile: Features, controlledTags: seq<string>)

  /** `SessionRecommendationContext`: fixed for the life of a session */
  datatype SessionContext = SessionContext(
    sessionId: string, videoId: string, manifestVersion: string, catalogVersion: string,
    products: seq<Product>, aoi: Option<Aoi.Metadata>, source: Option<SourceMetadata>,
    bindings: seq<Bound>, matching: Option<seq<MatchingProduct>>, completedV1: bool)
  {
    /** The approval that in-video attention needs. */
    predicate AttentionApproved() {
      if source.Some? then source.value.approved else aoi.Some? && aoi.value.approved
    }
  }

  datatype Batch = Batch(batchId: string, batchSequence: nat, sessionId: string, videoId: string,
                         observations: seq<Frame>)
  {
    predicate Valid() {
      && 1 <= |observations| <= MAX_BATCH_OBSERVATIONS
      && forall o :: o in observations ==> o.Valid()
    }
  }

  datatype ErrorCode =
    | SessionMismatch
    | VideoMismatch
    | SessionCompleted
    | GazeAttentionMismatch
    | ManifestMismatch
    | ClientProductAttributionForbidden
    | AoiMetadataUnapproved
    | VideoTimeOutOfRange
    | BatchIdConflict
    | BatchSequenceConflict
    | ObservationSequenceConflict
    | StalePlaybackEpoch
    | ObservationBufferFull
    | FrameContextConflict
    | FrameModalityConflict
    | SessionOffsetConflict
    | VideoTimeRegression
    | RecommendationMissing

  datatype AckStatus = Accepted | Duplicate

  // ----- The partial merge -----

  /** A missing modality is below every value and beside every other reason. */
  predicate ModalityLeq<V(==)>(a: Modality<V>, b: Modality<V>) {
    a == b || (a.value.None? && b.value.Some?)
  }

  function MergeModality<V(==)>(current: Modality<V>, incoming: Modality<V>): Option<Modality<V>> {
    if current.value.Some? && incoming.value.Some? && current.value != incoming.value then None
    else if current.value.None? && incoming.value.Some? then Some(Modality(incoming.value, None))
    else if current.value.None? && incoming.value.None? && current.reason != incoming.reason then None
    else Some(current)
  }

  /** `_merge_observation`: the merged frame and whether it differs from the current one */
  function Merge(current: Frame, incoming: Frame): Result<(Frame, bool), ErrorCode> {
    if !SameContext(current, incoming) then Err(FrameContextConflict)
    else
      var gaze := MergeModality(current.gaze, incoming.gaze);
      var expression := MergeModality(current.expression, incoming.expression);
      var attention := MergeModality(current.attention, incoming.attention);
      var derived := MergeModality(current.derived, incoming.derived);
      if gaze.None? || expression.None? || attention.None? || derived.None? then Err(FrameModalityConflict)
      else
        var changed :=
          || (current.gaze.value.None? && incoming.gaze.value.Some?)
          || (current.expression.value.None? && incoming.expression.value.Some?)
          || (current.attention.value.None? && incoming.attention.value.Some?)
          || (current.derived.value.None? && incoming.derived.value.Some?);
        if !changed then Ok((current, false))
        else Ok((current.(gaze := gaze.value, expression := expression.value,
                          attention := attention.value, derived := derived.value), true))
  }

  predicate FrameLeq(a: Frame, b: Frame) {
    && SameContext(a, b)
    && ModalityLeq(a.gaze, b.gaze) && ModalityLeq(a.expression, b.expression)
    && ModalityLeq(a.attention, b.attention) && ModalityLeq(a.derived, b.derived)
  }

  /** A successful merge is a least upper bound, drawn modality by modality from its two arguments. */
  lemma MergeIsJoin(current: Frame, incoming: Frame)
    requires current.Valid() && incoming.Valid() && Merge(current, incoming).Ok?
    ensures var (merged, changed) := Merge(current, incoming).value;
      && merged.Valid() && FrameLeq(current, merged) && FrameLeq(incoming, merged)
      && (forall upper: Frame :: FrameLeq(current, upper) && FrameLeq(incoming, upper) ==> FrameLeq(merged, upper))
      && (merged.gaze == current.gaze || merged.gaze == incoming.gaze)
      && (merged.expression == current.expression || merged.expression == incoming.expression)
      && (merged.attention == current.attention || merged.attention == incoming.attention)
      && (merged.derived == current.derived || merged.derived == incoming.derived)
      && (changed <==> merged != current)
  {
  }

  /** Merging succeeds exactly when the contexts agree and, modality by modality, one of the two frames is above the other. */
  lemma MergeDefined(current: Frame, incoming: Frame)
    requires current.Valid() && incoming.Valid()
    ensures Merge(current, incoming).Ok? <==>
      SameContext(current, incoming)
      && (ModalityLeq(current.gaze, incoming.gaze) || ModalityLeq(incoming.gaze, current.gaze))
      && (ModalityLeq(current.expression, incoming.expression) || ModalityLeq(incoming.expression, current.expression))
      && (ModalityLeq(current.attention, incoming.attention) || ModalityLeq(incoming.attention, current.attention))
      && (ModalityLeq(current.derived, incoming.derived) || ModalityLeq(incoming.derived, current.derived))
  {
  }

  // ----- Admission of one batch -----

  /** What one observation must satisfy against the session's fixed context. */
  predicate Admissible(ctx: SessionContext, o: Frame) {
    && (o.attention.value.Some? ==>
      && o.gaze.value.Some?
      && o.attention.value.value.manifestVersion == ctx.manifestVersion
      && o.attention.value.value.candidates == []
      && (o.attention.value.value.outsideVideo || ctx.AttentionApproved()))
    && (ctx.aoi.Some? ==> o.videoTime < ctx.aoi.value.durationMs)
  }

  function CheckObservation(ctx: SessionContext, o: Frame): (r: Option<ErrorCode>)
    ensures r.None? <==> Admissible(ctx, o)
  {
    if o.attention.value.Some? && o.gaze.value.None? then Some(GazeAttentionMismatch)
    else if o.attention.value.Some? && o.attention.value.value.manifestVersion != ctx.manifestVersion then
      Some(ErrorCode.ManifestMismatch)
    else if o.attention.value.Some? && o.attention.value.value.candidates != [] then
      Some(ClientProductAttributionForbidden)
    else if o.attention.value.Some? && !o.attention.value.value.outsideVideo && !ctx.AttentionApproved() then
      Some(AoiMetadataUnapproved)
    else if ctx.aoi.Some? && o.videoTime >= ctx.aoi.value.durationMs then Some(VideoTimeOutOfRange)
    else None
  }

  function CheckObservations(ctx: SessionContext, os: seq<Frame>): (r: Option<ErrorCode>)
    ensures r.None? <==> forall o :: o in os ==> Admissible(ctx, o)
  {
    if os == [] then None
    else
      var first := CheckObservation(ctx, os[0]);
      if first.Some? then first else CheckObservations(ctx, os[1..])
  }

  /** The checks made before the lock is taken. */
  function CheckBatch(ctx: SessionContext, sessionId: string, batch: Batch): (r: Option<ErrorCode>)
    ensures r.None? ==> forall o :: o in batch.observations ==> Admissible(ctx, o)
  {
    if batch.sessionId != sessionId then Some(SessionMismatch)
    else if batch.videoId != ctx.videoId then Some(VideoMismatch)
    else if ctx.completedV1 then Some(SessionCompleted)
    else CheckObservations(ctx, batch.observations)
  }

  /** The prospective copies that a batch builds up before anything is published. */
  datatype Draft = Draft(observations: map<Key, Frame>, sequenceIndex: map<nat, Key>, highestEpoch: int)

  function AdmitFrame(draft: Draft, o: Frame): Result<(Draft, bool), ErrorCode> {
    var key := o.FrameKey();
    if o.sequence in draft.sequenceIndex && draft.sequenceIndex[o.sequence] != key then
      Err(ObservationSequenceConflict)
    else if key !in draft.observations then
      if o.epoch < draft.highestEpoch then Err(StalePlaybackEpoch)
      else if |draft.observations| >= MAX_BUFFERED_OBSERVATIONS then Err(ObservationBufferFull)
      else Ok((Draft(draft.observations[key := o], draft.sequenceIndex[o.sequence := key],
                     Max(draft.highestEpoch, o.epoch)), true))
    else
      var merged := Merge(draft.observations[key], o);
      if merged.Err? then Err(merged.error)
      else Ok((draft.(observations := draft.observations[key := merged.value.0]), merged.value.1))
  }

  function AdmitAll(draft: Draft, os: seq<Frame>): Result<(Draft, bool), ErrorCode> {
    if os == [] then Ok((draft, false))
    else
      var before := AdmitAll(draft, os[..|os| - 1]);
      if before.Err? then before
      else
        var last := AdmitFrame(before.value.0, os[|os| - 1]);
        if last.Err? then last else Ok((last.value.0, before.value.1 || last.value.1))
  }

  /** `session_offset_ms` is nondecreasing in analysis order. */
  predicate OffsetsForward(observations: map<Key, Frame>) {
    forall j, k :: j in observations && k in observations && FrameLess(observations[j], observations[k]) ==>
      observations[j].sessionOffset <= observations[k].sessionOffset
  }

  predicate SequenceBefore(a: Frame, b: Frame) {
    a.epoch == b.epoch && a.sequence < b.sequence
  }

  /** Inside one epoch, `video_time_ms` is nondecreasing by sequence. */
  predicate VideoTimeForward(observations: map<Key, Frame>) {
    forall j, k :: j in observations && k in observations && SequenceBefore(observations[j], observations[k]) ==>
      observations[j].videoTime <= observations[k].videoTime
  }

  /** Per epoch, the largest video time among its frames. */
  ghost predicate LastVideoTimes(lasts: map<nat, nat>, observations: map<Key, Frame>) {
    && (forall k :: k in observations ==>
      observations[k].epoch in lasts && observations[k].videoTime <= lasts[observations[k].epoch])
    && (forall e :: e in lasts ==> LastAttained(e, lasts[e], observations))
  }

  ghost predicate LastAttained(epoch: nat, time: nat, observations: map<Key, Frame>) {
    exists k :: k in observations && observations[k].epoch == epoch && observations[k].videoTime == time
  }

  lemma LastVideoTimesUnique(a: map<nat, nat>, b: map<nat, nat>, observations: map<Key, Frame>)
    requires LastVideoTimes(a, observations) && LastVideoTimes(b, observations)
    ensures a == b
  {
    forall e | e in a ensures e in b && a[e] <= b[e] {
      assert LastAttained(e, a[e], observations);
    }
    forall e | e in b ensures e in a && b[e] <= a[e] {
      assert LastAttained(e, b[e], observations);
    }
  }

  function SourceHits(ctx: SessionContext, observations: map<Key, Frame>): map<Key, seq<Hit>>
    requires forall k :: k in observations ==> observations[k].Valid()
  {
    if ctx.source.Some? && ctx.source.value.approved
    then map k | k in observations :: ResolveHits(observations[k], ctx.bindings)
    else map[]
  }

  /**
   The frame-derived part of `V2SessionState`. SHA-256 of a batch is taken to be injective, so the
   fingerprint table stores the batch itself.
   */
  datatype Buffer = Buffer(
    observations: map<Key, Frame>,
    sourceHits: map<Key, seq<Hit>>,
    sequenceIndex: map<nat, Key>,
    fingerprints: map<string, Batch>,
    batchSequences: map<nat, string>,
    highestEpoch: int,
    lastVideoTimes: map<nat, nat>)
  {
    function Drafted(): Draft {
      Draft(observations, sequenceIndex, highestEpoch)
    }
  }

  /** `clear_transient` and a fresh session */
  const EmptyBuffer := Buffer(map[], map[], map[], map[], map[], -1, map[])

  /** The lock-held part of `append_batch` on a collecting session, as a relation to its outcome. */
  ghost predicate Ingests(ctx: SessionContext, current: Buffer, batch: Batch, r: Result<(Buffer, AckStatus), ErrorCode>)
    requires forall k :: k in current.observations ==> current.observations[k].Valid()
    requires batch.Valid()
  {
    if batch.batchId in current.fingerprints then
      r == if current.fingerprints[batch.batchId] != batch then Err(BatchIdConflict) else Ok((current, Duplicate))
    else if batch.batchSequence in current.batchSequences && current.batchSequences[batch.batchSequence] != batch.batchId then
      r == Err(BatchSequenceConflict)
    else
      var admitted := AdmitAll(current.Drafted(), batch.observations);
      if admitted.Err? then r == Err(admitted.error)
      else
        var (draft, changed) := admitted.value;
        if !OffsetsForward(draft.observations) then r == Err(SessionOffsetConflict)
        else if !VideoTimeForward(draft.observations) then r == Err(VideoTimeRegression)
        else
          && r.Ok?
          && r.value.1 == (if changed then Accepted else Duplicate)
          && r.value.0.Drafted() == draft
          && r.value.0.fingerprints == current.fingerprints[batch.batchId := batch]
          && r.value.0.batchSequences == current.batchSequences[batch.batchSequence := batch.batchId]
          && LastVideoTimes(r.value.0.lastVideoTimes, draft.observations)
          && (forall k :: k in draft.observations ==> draft.observations[k].Valid())
          && r.value.0.sourceHits == SourceHits(ctx, draft.observations)
  }

  // ----- What every reachable buffer satisfies -----

  ghost predicate FramesValid(ctx: SessionContext, observations: map<Key, Frame>) {
    && |observations| <= MAX_BUFFERED_OBSERVATIONS
    && forall k :: k in observations ==>
      observations[k].Valid() && observations[k].FrameKey() == k && Admissible(ctx, observations[k])
  }

  /** `sequence_index` and `observations` are in bijection. */
  ghost predicate Indexed(observations: map<Key, Frame>, index: map<nat, Key>) {
    && (forall k :: k in observations ==>
      observations[k].sequence in index && index[observations[k].sequence] == k)
    && (forall s :: s in index ==> index[s] in observations && observations[index[s]].sequence == s)
  }

  /** The highest epoch is the largest key epoch, or -1 when there is none. */
  ghost predicate HighestEpoch(observations: map<Key, Frame>, highest: int) {
    && (forall k :: k in observations ==> k.epoch <= highest)
    && (observations == map[] ==> highest == -1)
    && (observations != map[] ==> exists k :: k in observations && k.epoch == highest)
  }

  /** The part of the invariant that also holds half way through a batch. */
  ghost predicate DraftInv(ctx: SessionContext, d: Draft) {
    FramesValid(ctx, d.observations) && Indexed(d.observations, d.sequenceIndex)
    && HighestEpoch(d.observations, d.highestEpoch)
  }

  /** `batch_sequence_index` and `batch_fingerprints` are in bijection. */
  ghost predicate BatchTables(fingerprints: map<string, Batch>, sequences: map<nat, string>) {
    && (forall id :: id in fingerprints ==>
      && fingerprints[id].batchId == id
      && fingerprints[id].batchSequence in sequences && sequences[fingerprints[id].batchSequence] == id)
    && (forall s :: s in sequences ==> sequences[s] in fingerprints && fingerprints[sequences[s]].batchSequence == s)
  }

  /** The representation invariant of a collecting session's buffer. */
  ghost predicate BufferInv(ctx: SessionContext, b: Buffer) {
    && DraftInv(ctx, b.Drafted())
    && BatchTables(b.fingerprints, b.batchSequences)
    && OffsetsForward(b.observations) && VideoTimeForward(b.observations)
    && LastVideoTimes(b.lastVideoTimes, b.observations)
    && b.sourceHits == SourceHits(ctx, b.observations)
  }

  lemma IndexExtends(observations: map<Key, Frame>, index: map<nat, Key>, key: Key, o: Frame)
    requires Indexed(observations, index) && key !in observations && key == o.FrameKey()
    requires o.sequence in index ==> index[o.sequence] == key
    ensures Indexed(observations[key := o], index[o.sequence := key])
  {
  }

  lemma HighestExtends(observations: map<Key, Frame>, highest: int, key: Key, o: Frame)
    requires HighestEpoch(observations, highest) && key.epoch >= highest && key == o.FrameKey()
    ensures HighestEpoch(observations[key := o], key.epoch)
  {
    assert key in observations[key := o];
  }

  lemma SizeExtends(observations: map<Key, Frame>, key: Key, o: Frame)
    ensures |observations[key := o]| <= |observations| + 1
    ensures key in observations ==> |observations[key := o]| == |observations|
  {
    var next := observations[key := o];
    assert next.Keys == observations.Keys + {key};
    assert |next| == |next.Keys| && |observations| == |observations.Keys|;
    if key in observations {
      assert next.Keys == observations.Keys;
    }
  }

  lemma AdmitNewFrame(ctx: SessionContext, d: Draft, o: Frame)
    requires DraftInv(ctx, d) && o.Valid() && Admissible(ctx, o)
    requires o.FrameKey() !in d.observations && AdmitFrame(d, o).Ok?
    ensures DraftInv(ctx, AdmitFrame(d, o).value.0)
  {
    var next, key := AdmitFrame(d, o).value.0, o.FrameKey();
    assert next == Draft(d.observations[key := o], d.sequenceIndex[o.sequence := key], o.epoch);
    SizeExtends(d.observations, key, o);
    IndexExtends(d.observations, d.sequenceIndex, key, o);
    HighestExtends(d.observations, d.highestEpoch, key, o);
  }

  lemma AdmitKnownFrame(ctx: SessionContext, d: Draft, o: Frame)
    requires DraftInv(ctx, d) && o.Valid() && Admissible(ctx, o)
    requires o.FrameKey() in d.observations && AdmitFrame(d, o).Ok?
    ensures DraftInv(ctx, AdmitFrame(d, o).value.0)
  {
    var next, key := AdmitFrame(d, o).value.0, o.FrameKey();
    MergeIsJoin(d.observations[key], o);
    SizeExtends(d.observations, key, next.observations[key]);
    assert Admissible(ctx, next.observations[key]);
    var m :| m in d.observations && m.epoch == d.highestEpoch;
    assert m in next.observations;
  }

  lemma AdmitFrameInv(ctx: SessionContext, d: Draft, o: Frame)
    requires DraftInv(ctx, d) && o.Valid() && Admissible(ctx, o) && AdmitFrame(d, o).Ok?
    ensures DraftInv(ctx, AdmitFrame(d, o).value.0)
  {
    if o.FrameKey() in d.observations {
      AdmitKnownFrame(ctx, d, o);
    } else {
      AdmitNewFrame(ctx, d, o);
    }
  }

  lemma {:induction false} AdmitAllInv(ctx: SessionContext, d: Draft, os: seq<Frame>)
    requires DraftInv(ctx, d) && AdmitAll(d, os).Ok?
    requires forall o :: o in os ==> o.Valid() && Admissible(ctx, o)
    ensures DraftInv(ctx, AdmitAll(d, os).value.0)
  {
    if os != [] {
      var init := os[..|os| - 1];
      AdmitAllInv(ctx, d, init);
      AdmitFrameInv(ctx, AdmitAll(d, init).value.0, os[|os| - 1]);
    }
  }

  // ----- When a batch changed something -----

  /** Nothing stored is lost, and no stored frame falls. */
  ghost predicate Grows(a: map<Key, Frame>, b: map<Key, Frame>) {
    forall k :: k in a ==> k in b && FrameLeq(a[k], b[k])
  }

  lemma GrowsOn(a: map<Key, Frame>, b: map<Key, Frame>, c: map<Key, Frame>)
    requires Grows(a, b) && Grows(b, c)
    ensures Grows(a, c)
  {
  }

  /** Growth is never undone. */
  lemma GrowsBack(a: map<Key, Frame>, b: map<Key, Frame>)
    requires Grows(a, b) && Grows(b, a)
    ensures a == b
  {
    forall k | k in a ensures k in b && a[k] == b[k] {
      assert FrameLeq(a[k], b[k]) && FrameLeq(b[k], a[k]);
    }
    assert a.Keys == b.Keys;
  }

  /** The step from `before` to `after` only adds, and `changed` says whether it added anything. */
  ghost predicate Moves(before: map<Key, Frame>, after: map<Key, Frame>, changed: bool) {
    Grows(before, after) && (changed <==> after != before)
  }

  lemma MovesOn(a: map<Key, Frame>, b: map<Key, Frame>, c: map<Key, Frame>, first: bool, second: bool)
    requires Moves(a, b, first) && Moves(b, c, second)
    ensures Moves(a, c, first || second)
  {
    hide FrameLeq, Grows;
    GrowsOn(a, b, c);
    if a == c {
      GrowsBack(a, b);
    }
  }

  lemma AdmitFrameMoves(ctx: SessionContext, d: Draft, o: Frame)
    requires DraftInv(ctx, d) && o.Valid() && AdmitFrame(d, o).Ok?
    ensures Moves(d.observations, AdmitFrame(d, o).value.0.observations, AdmitFrame(d, o).value.1)
  {
    var key := o.FrameKey();
    if key in d.observations {
      hide Frame.Valid, Merge, Indexed, HighestEpoch, Admissible;
      MergeIsJoin(d.observations[key], o);
    }
  }

  lemma {:induction false} AdmitAllMoves(ctx: SessionContext, d: Draft, os: seq<Frame>)
    requires DraftInv(ctx, d) && AdmitAll(d, os).Ok?
    requires forall o :: o in os ==> o.Valid() && Admissible(ctx, o)
    ensures Moves(d.observations, AdmitAll(d, os).value.0.observations, AdmitAll(d, os).value.1)
  {
    hide DraftInv, AdmitFrame, Admissible, Frame.Valid;
    if os != [] {
      var init := os[..|os| - 1];
      AdmitAllInv(ctx, d, init);
      AdmitAllMoves(ctx, d, init);
      var middle := AdmitAll(d, init).value.0;
      AdmitFrameMoves(ctx, middle, os[|os| - 1]);
      MovesOn(d.observations, middle.observations, AdmitAll(d, os).value.0.observations, AdmitAll(d, init).value.1,
              AdmitFrame(middle, os[|os| - 1]).value.1);
    } else {
      hide FrameLeq;
      SameMoves(d.observations);
    }
  }

  lemma SameMoves(observations: map<Key, Frame>)
    ensures Moves(observations, observations, false)
  {
  }

  /**
   The answer tells what happened: "accepted" exactly when the stored frames are not what they were,
   wherever in the batch the change came. No frame is lost or loses a modality.
   */
  lemma AcceptedMeansChanged(ctx: SessionContext, current: Buffer, batch: Batch, r: Result<(Buffer, AckStatus), ErrorCode>)
    requires BufferInv(ctx, current) && batch.Valid() && (forall o :: o in batch.observations ==> Admissible(ctx, o))
    requires forall k :: k in current.observations ==> current.observations[k].Valid()
    requires Ingests(ctx, current, batch, r) && r.Ok?
    ensures r.value.1 == Accepted <==> r.value.0.observations != current.observations
    ensures Grows(current.observations, r.value.0.observations)
  {
    hide AdmitAll, Admissible, OffsetsForward, VideoTimeForward, LastVideoTimes, SourceHits, Indexed, HighestEpoch, BatchTables,
      FramesValid, Frame.Valid, Grows;
    SameMoves(current.observations);
    if batch.batchId !in current.fingerprints {
      AdmitAllMoves(ctx, current.Drafted(), batch.observations);
    }
  }

  lemma TablesExtend(fingerprints: map<string, Batch>, sequences: map<nat, string>, batch: Batch)
    requires BatchTables(fingerprints, sequences)
    requires batch.batchId !in fingerprints
    requires batch.batchSequence in sequences ==> sequences[batch.batchSequence] == batch.batchId
    ensures BatchTables(fingerprints[batch.batchId := batch], sequences[batch.batchSequence := batch.batchId])
  {
  }

  /** Every accepted batch preserves the representation invariant. */
  lemma IngestPreservesInv(ctx: SessionContext, current: Buffer, batch: Batch,
                           r: Result<(Buffer, AckStatus), ErrorCode>)
    requires BufferInv(ctx, current) && batch.Valid()
    requires forall o :: o in batch.observations ==> Admissible(ctx, o)
    requires Ingests(ctx, current, batch, r) && r.Ok?
    ensures BufferInv(ctx, r.value.0)
  {
    if batch.batchId !in current.fingerprints {
      AdmitAllInv(ctx, current.Drafted(), batch.observations);
      TablesExtend(current.fingerprints, current.batchSequences, batch);
    }
  }

  lemma EmptyInv(ctx: SessionContext)
    ensures BufferInv(ctx, EmptyBuffer)
  {
    assert EmptyBuffer.sourceHits == SourceHits(ctx, EmptyBuffer.observations);
  }
}
