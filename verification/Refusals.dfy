/** What an error of `append_batch` says: it names a rule that the batch really breaks, at its first offending frame. */
module Refusals {
  import opened Common
  import opened Observations
  import opened Ingestion

  // ----- Rules of the session's context -----

  /** The observation breaks the rule that the code names. */
  predicate Violates(ctx: SessionContext, o: Frame, code: ErrorCode) {
    var a := o.attention.value;
    match code
    case GazeAttentionMismatch => a.Some? && o.gaze.value.None?
    case ManifestMismatch => a.Some? && a.value.manifestVersion != ctx.manifestVersion
    case ClientProductAttributionForbidden => a.Some? && a.value.candidates != []
    case AoiMetadataUnapproved => a.Some? && !a.value.outsideVideo && !ctx.AttentionApproved()
    case VideoTimeOutOfRange => ctx.aoi.Some? && ctx.aoi.value.durationMs <= o.videoTime
    case _ => false
  }

  lemma ObservationRefused(ctx: SessionContext, o: Frame)
    ensures CheckObservation(ctx, o).Some? ==> Violates(ctx, o, CheckObservation(ctx, o).value)
    ensures CheckObservation(ctx, o).None? ==> forall code :: !Violates(ctx, o, code)
  {
  }

  /** The observations are refused for the first one that breaks a rule, and only then. */
  lemma {:induction false} ObservationsRefused(ctx: SessionContext, os: seq<Frame>)
    ensures CheckObservations(ctx, os).Some? ==>
      exists k :: 0 <= k < |os| && Violates(ctx, os[k], CheckObservations(ctx, os).value)
                  && forall j, code :: 0 <= j < k ==> !Violates(ctx, os[j], code)
    ensures CheckObservations(ctx, os).None? ==> forall k, code :: 0 <= k < |os| ==> !Violates(ctx, os[k], code)
  {
    hide Violates, CheckObservation;
    if os != [] {
      var rest := os[1..];
      ObservationRefused(ctx, os[0]);
      ObservationsRefused(ctx, rest);
      if CheckObservation(ctx, os[0]).None? {
        assert forall k :: 0 < k < |os| ==> os[k] == rest[k - 1];
        if CheckObservations(ctx, rest).Some? {
          var k :| 0 <= k < |rest| && Violates(ctx, rest[k], CheckObservations(ctx, rest).value)
                   && forall j, code :: 0 <= j < k ==> !Violates(ctx, rest[j], code);
          assert os[k + 1] == rest[k];
        }
      }
    }
  }

  /** The errors raised before the lock is taken. */
  lemma BatchChecked(ctx: SessionContext, sessionId: string, batch: Batch)
    ensures CheckBatch(ctx, sessionId, batch) == Some(SessionMismatch) <==> batch.sessionId != sessionId
    ensures CheckBatch(ctx, sessionId, batch) == Some(VideoMismatch) <==>
              batch.sessionId == sessionId && batch.videoId != ctx.videoId
    ensures CheckBatch(ctx, sessionId, batch) == Some(SessionCompleted) <==>
              batch.sessionId == sessionId && batch.videoId == ctx.videoId && ctx.completedV1
    ensures CheckBatch(ctx, sessionId, batch).None? <==>
      && batch.sessionId == sessionId && batch.videoId == ctx.videoId && !ctx.completedV1
      && forall k, code :: 0 <= k < |batch.observations| ==> !Violates(ctx, batch.observations[k], code)
  {
    hide Violates, CheckObservations, Admissible;
    ObservationsRefused(ctx, batch.observations);
    OwnCodes(ctx, batch.observations);
  }

  lemma OwnCodes(ctx: SessionContext, os: seq<Frame>)
    ensures forall k :: 0 <= k < |os| ==>
      !Violates(ctx, os[k], SessionMismatch) && !Violates(ctx, os[k], VideoMismatch) && !Violates(ctx, os[k], SessionCompleted)
  {
  }

  // ----- Conflicts with what is stored -----

  predicate Comparable<V(==)>(a: Modality<V>, b: Modality<V>) {
    ModalityLeq(a, b) || ModalityLeq(b, a)
  }

  /** The observation conflicts with the stored frames in the way that the code names. */
  ghost predicate Conflicts(stored: map<Key, Frame>, o: Frame, code: ErrorCode) {
    var key := o.FrameKey();
    match code
    case ObservationSequenceConflict => exists k :: k in stored && k != key && stored[k].sequence == o.sequence
    case StalePlaybackEpoch => key !in stored && exists k :: k in stored && k.epoch > o.epoch
    case ObservationBufferFull => key !in stored && |stored| == MAX_BUFFERED_OBSERVATIONS
    case FrameContextConflict => key in stored && !SameContext(stored[key], o)
    case FrameModalityConflict =>
      key in stored
      && !(Comparable(stored[key].gaze, o.gaze) && Comparable(stored[key].expression, o.expression)
           && Comparable(stored[key].attention, o.attention) && Comparable(stored[key].derived, o.derived))
    case _ => false
  }

  lemma SequenceTaken(ctx: SessionContext, d: Draft, o: Frame)
    requires DraftInv(ctx, d)
    ensures o.sequence in d.sequenceIndex && d.sequenceIndex[o.sequence] != o.FrameKey() <==>
            Conflicts(d.observations, o, ObservationSequenceConflict)
  {
    hide Frame.Valid, Admissible, HighestEpoch;
    if o.sequence in d.sequenceIndex {
      assert d.sequenceIndex[o.sequence] in d.observations;
    }
  }

  lemma EpochIsOld(ctx: SessionContext, d: Draft, o: Frame)
    requires DraftInv(ctx, d) && o.FrameKey() !in d.observations
    ensures o.epoch < d.highestEpoch <==> Conflicts(d.observations, o, StalePlaybackEpoch)
  {
    hide Frame.Valid, Admissible, Indexed;
  }

  lemma MergeRefused(current: Frame, o: Frame)
    requires current.Valid() && o.Valid()
    ensures Merge(current, o) == Err(FrameContextConflict) <==> !SameContext(current, o)
    ensures Merge(current, o) == Err(FrameModalityConflict) <==>
      SameContext(current, o)
      && !(Comparable(current.gaze, o.gaze) && Comparable(current.expression, o.expression)
           && Comparable(current.attention, o.attention) && Comparable(current.derived, o.derived))
    ensures Merge(current, o).Err? ==> Merge(current, o).error == FrameContextConflict
                                       || Merge(current, o).error == FrameModalityConflict
  {
    MergeDefined(current, o);
  }

  /** An observation is refused exactly when it conflicts with what is stored, with the code of such a conflict. */
  lemma FrameRefused(ctx: SessionContext, d: Draft, o: Frame)
    requires DraftInv(ctx, d) && o.Valid()
    ensures AdmitFrame(d, o).Err? ==> Conflicts(d.observations, o, AdmitFrame(d, o).error)
    ensures AdmitFrame(d, o).Ok? ==> forall code :: !Conflicts(d.observations, o, code)
  {
    hide Frame.Valid, Admissible, Merge, SameContext, Comparable, Indexed, HighestEpoch;
    SequenceTaken(ctx, d, o);
    if o.FrameKey() in d.observations {
      MergeRefused(d.observations[o.FrameKey()], o);
    } else {
      EpochIsOld(ctx, d, o);
    }
  }

  /** The first observation that conflicts with what is stored, and what its predecessors added, refuses the batch. */
  lemma {:induction false} BatchRefused(ctx: SessionContext, d: Draft, os: seq<Frame>) returns (n: nat)
    requires DraftInv(ctx, d) && AdmitAll(d, os).Err?
    requires forall o :: o in os ==> o.Valid() && Admissible(ctx, o)
    ensures n < |os| && AdmitAll(d, os[..n]).Ok?
    ensures Conflicts(AdmitAll(d, os[..n]).value.0.observations, os[n], AdmitAll(d, os).error)
  {
    hide DraftInv, AdmitFrame, Admissible, Frame.Valid, Conflicts;
    var init, last := os[..|os| - 1], os[|os| - 1];
    if AdmitAll(d, init).Err? {
      n := BatchRefused(ctx, d, init);
      assert init[..n] == os[..n];
    } else {
      n := |init|;
      AdmitAllInv(ctx, d, init);
      FrameRefused(ctx, AdmitAll(d, init).value.0, last);
    }
  }

  /** Some frame comes before another in analysis order and has the greater session offset. */
  ghost predicate OffsetsFall(m: map<Key, Frame>) {
    exists j, k :: j in m && k in m && FrameLess(m[j], m[k]) && m[j].sessionOffset > m[k].sessionOffset
  }

  /** Some frame has a smaller sequence number than another of its epoch and the greater video time. */
  ghost predicate TimesFall(m: map<Key, Frame>) {
    exists j, k :: j in m && k in m && m[j].epoch == m[k].epoch && m[j].sequence < m[k].sequence
                   && m[j].videoTime > m[k].videoTime
  }

  /** What a refusal under the lock tells about the batch. */
  ghost predicate Explains(current: Buffer, batch: Batch, code: ErrorCode) {
    var os := batch.observations;
    if code == BatchIdConflict then
      batch.batchId in current.fingerprints && current.fingerprints[batch.batchId] != batch
    else if code == BatchSequenceConflict then
      exists id :: id in current.fingerprints && id != batch.batchId
                   && current.fingerprints[id].batchSequence == batch.batchSequence
    else if code == SessionOffsetConflict then
      AdmitAll(current.Drafted(), os).Ok? && OffsetsFall(AdmitAll(current.Drafted(), os).value.0.observations)
    else if code == VideoTimeRegression then
      AdmitAll(current.Drafted(), os).Ok? && TimesFall(AdmitAll(current.Drafted(), os).value.0.observations)
    else
      exists n :: 0 <= n < |os| && AdmitAll(current.Drafted(), os[..n]).Ok?
                  && Conflicts(AdmitAll(current.Drafted(), os[..n]).value.0.observations, os[n], code)
  }

  /** Whatever error the lock-held part of `append_batch` raises, the batch is as the error says. */
  lemma RefusalExplains(ctx: SessionContext, current: Buffer, batch: Batch, code: ErrorCode)
    requires BufferInv(ctx, current) && batch.Valid()
    requires forall o :: o in batch.observations ==> Admissible(ctx, o)
    requires forall k :: k in current.observations ==> current.observations[k].Valid()
    requires Ingests(ctx, current, batch, Err(code))
    ensures Explains(current, batch, code)
  {
    hide AdmitAll, Admissible, LastVideoTimes, SourceHits, Indexed, HighestEpoch, FramesValid, Frame.Valid, Conflicts, FrameLess;
    var d, os := current.Drafted(), batch.observations;
    if batch.batchId in current.fingerprints {
    } else if batch.batchSequence in current.batchSequences && current.batchSequences[batch.batchSequence] != batch.batchId {
      assert current.batchSequences[batch.batchSequence] in current.fingerprints;
    } else if AdmitAll(d, os).Err? {
      var n := BatchRefused(ctx, d, os);
      OwnConflict(AdmitAll(d, os[..n]).value.0.observations, os[n], code);
    }
  }

  lemma OwnConflict(stored: map<Key, Frame>, o: Frame, code: ErrorCode)
    requires Conflicts(stored, o, code)
    ensures code != BatchIdConflict && code != BatchSequenceConflict
    ensures code != SessionOffsetConflict && code != VideoTimeRegression
  {
  }
}
