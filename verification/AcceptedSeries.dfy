/**
 Histories that the store accepts: any series of valid frames in order goes in as one batch, and
 aggregation then sees exactly that series.
 */
module AcceptedSeries {
  import opened Common
  import opened Sorting
  import opened Observations
  import opened Ingestion
  import opened Confluence
  import opened Snapshots
  import opened Completion
  import opened Grounding

  /** Frames that the store accepts in one batch, already in analysis order. */
  ghost predicate Series(ctx: SessionContext, os: seq<Frame>) {
    && 1 <= |os| <= MAX_BATCH_OBSERVATIONS
    && (forall i :: 0 <= i < |os| ==>
      && os[i].sequence == i && os[i].capturedAt == i as real && os[i].sessionOffset == 0.0
      && os[i].Valid() && Admissible(ctx, os[i]))
    && (forall i, j :: 0 <= i < j < |os| ==>
      os[i].epoch <= os[j].epoch && os[i].videoTime <= os[j].videoTime && os[i].FrameKey() != os[j].FrameKey())
  }

  function BatchOf(os: seq<Frame>): Batch {
    Batch("b1", 0, "s1", "v1", os)
  }

  ghost predicate Among(os: seq<Frame>, n: nat, f: Frame)
    requires n <= |os|
  {
    exists i :: 0 <= i < n && os[i] == f
  }

  /** The first `n` frames are stored under their keys. */
  ghost predicate Stored(os: seq<Frame>, n: nat, observations: map<Key, Frame>)
    requires n <= |os|
  {
    forall i :: 0 <= i < n ==> os[i].FrameKey() in observations && observations[os[i].FrameKey()] == os[i]
  }

  /** Nothing else is stored. */
  ghost predicate Only(os: seq<Frame>, n: nat, observations: map<Key, Frame>)
    requires n <= |os|
  {
    forall k :: k in observations ==> observations[k].FrameKey() == k && Among(os, n, observations[k])
  }

  ghost predicate DraftIs(os: seq<Frame>, n: nat, d: Draft)
    requires n <= |os|
  {
    && |d.observations| == n && d.highestEpoch == (if n == 0 then -1 else os[n - 1].epoch)
    && Stored(os, n, d.observations) && Only(os, n, d.observations)
    && (forall s :: s in d.sequenceIndex ==> s < n)
  }

  lemma {:induction false} SeriesAdmitted(ctx: SessionContext, os: seq<Frame>, n: nat) returns (d: Draft)
    requires Series(ctx, os) && n <= |os|
    ensures AdmitAll(EmptyBuffer.Drafted(), os[..n]) == Ok((d, n > 0)) && DraftIs(os, n, d)
  {
    hide Frame.Valid, Admissible;
    if n == 0 {
      d := EmptyBuffer.Drafted();
    } else {
      var before := SeriesAdmitted(ctx, os, n - 1);
      assert os[..n][..n - 1] == os[..n - 1];
      NextAdmitted(ctx, os, n - 1, before);
      d := AdmitFrame(before, os[n - 1]).value.0;
    }
  }

  lemma NextAdmitted(ctx: SessionContext, os: seq<Frame>, n: nat, d: Draft)
    requires Series(ctx, os) && n < |os| && DraftIs(os, n, d)
    ensures AdmitFrame(d, os[n]) == Ok((Extended(d, os[n]), true)) && DraftIs(os, n + 1, Extended(d, os[n]))
  {
    hide DraftIs, Frame.Valid, Admissible, Merge;
    NewKey(ctx, os, n, d);
    StillDraft(ctx, os, n, d);
  }

  function Extended(d: Draft, o: Frame): Draft {
    Draft(d.observations[o.FrameKey() := o], d.sequenceIndex[o.sequence := o.FrameKey()], o.epoch)
  }

  lemma NewKey(ctx: SessionContext, os: seq<Frame>, n: nat, d: Draft)
    requires Series(ctx, os) && n < |os| && DraftIs(os, n, d)
    ensures os[n].FrameKey() !in d.observations && os[n].sequence !in d.sequenceIndex && os[n].epoch >= d.highestEpoch
    ensures |d.observations| < MAX_BUFFERED_OBSERVATIONS
  {
    hide Frame.Valid, Admissible;
  }

  lemma StillDraft(ctx: SessionContext, os: seq<Frame>, n: nat, d: Draft)
    requires Series(ctx, os) && n < |os| && DraftIs(os, n, d) && os[n].FrameKey() !in d.observations
    ensures DraftIs(os, n + 1, Extended(d, os[n]))
  {
    hide Series, Frame.Valid, Admissible, Stored, Only;
    SeriesKeys(ctx, os, n);
    StillStored(os, n, d.observations);
    StillOnly(os, n, d.observations);
  }

  lemma StillStored(os: seq<Frame>, n: nat, m: map<Key, Frame>)
    requires n < |os| && Stored(os, n, m) && forall i :: 0 <= i < n ==> os[i].FrameKey() != os[n].FrameKey()
    ensures Stored(os, n + 1, m[os[n].FrameKey() := os[n]])
  {
  }

  lemma StillOnly(os: seq<Frame>, n: nat, m: map<Key, Frame>)
    requires n < |os| && Only(os, n, m)
    ensures Only(os, n + 1, m[os[n].FrameKey() := os[n]])
  {
    hide Among;
    AmongMore(os, n);
  }

  lemma SeriesKeys(ctx: SessionContext, os: seq<Frame>, n: nat)
    requires Series(ctx, os) && n < |os|
    ensures os[n].sequence == n && forall i :: 0 <= i < n ==> os[i].FrameKey() != os[n].FrameKey()
  {
    hide Frame.Valid, Admissible;
  }

  lemma AmongMore(os: seq<Frame>, n: nat)
    requires n < |os|
    ensures Among(os, n + 1, os[n]) && forall f :: Among(os, n, f) ==> Among(os, n + 1, f)
  {
  }

  function EpochsIn(observations: map<Key, Frame>): set<nat> {
    set k | k in observations :: observations[k].epoch
  }

  /** The time of the last of the first `n` frames in an epoch. */
  function TimeIn(os: seq<Frame>, n: nat, epoch: nat): nat
    requires n <= |os|
  {
    if n == 0 then 0 else if os[n - 1].epoch == epoch then os[n - 1].videoTime else TimeIn(os, n - 1, epoch)
  }

  lemma {:induction false} TimeIs(ctx: SessionContext, os: seq<Frame>, n: nat, epoch: nat)
    requires Series(ctx, os) && n <= |os|
    ensures forall i :: 0 <= i < n && os[i].epoch == epoch ==> os[i].videoTime <= TimeIn(os, n, epoch)
    ensures forall i :: 0 <= i < n && os[i].epoch == epoch ==>
              exists k :: 0 <= k < n && os[k].epoch == epoch && os[k].videoTime == TimeIn(os, n, epoch)
  {
    hide Frame.Valid, Admissible;
    if n > 0 {
      TimeIs(ctx, os, n - 1, epoch);
    }
  }

  function BufferOf(ctx: SessionContext, os: seq<Frame>, d: Draft): Buffer
    requires forall k :: k in d.observations ==> d.observations[k].Valid()
  {
    Buffer(d.observations, SourceHits(ctx, d.observations), d.sequenceIndex, map["b1" := BatchOf(os)], map[0 := "b1"], d.highestEpoch,
           map e | e in EpochsIn(d.observations) :: TimeIn(os, |os|, e))
  }

  /** A session of the batch's own ids that no v1 run has completed. */
  predicate Open(ctx: SessionContext) {
    ctx.sessionId == "s1" && ctx.videoId == "v1" && !ctx.completedV1
  }

  /** The store takes the series as one batch, and its buffer then holds exactly these frames. */
  lemma SeriesAccepted(ctx: SessionContext, os: seq<Frame>) returns (b: Buffer)
    requires Series(ctx, os) && Open(ctx)
    ensures BatchOf(os).Valid() && Accepts(ctx, EmptyBuffer, BatchOf(os), b)
    ensures Enumerates(os, b.observations) && BufferInv(ctx, b)
  {
    hide Frame.Valid, Admissible, DraftIs, LastVideoTimes, OffsetsForward, VideoTimeForward, Enumerates, BufferInv, SourceHits;
    var d := SeriesAdmitted(ctx, os, |os|);
    assert os[..|os|] == os;
    SeriesStill(ctx, os, d);
    SeriesTimes(ctx, os, d);
    b := BufferOf(ctx, os, d);
    SeriesChecked(ctx, os);
    SeriesEnumerates(ctx, os, d);
    assert Ingests(ctx, EmptyBuffer, BatchOf(os), Ok((b, Accepted)));
    EmptyInv(ctx);
    IngestPreservesInv(ctx, EmptyBuffer, BatchOf(os), Ok((b, Accepted)));
  }

  lemma SeriesChecked(ctx: SessionContext, os: seq<Frame>)
    requires Series(ctx, os) && Open(ctx)
    ensures BatchOf(os).Valid() && CheckBatch(ctx, "s1", BatchOf(os)).None?
    ensures forall o :: o in os ==> Admissible(ctx, o)
  {
    hide Frame.Valid, Admissible;
    assert CheckObservations(ctx, os).None?;
  }

  lemma SeriesEnumerates(ctx: SessionContext, os: seq<Frame>, d: Draft)
    requires Series(ctx, os) && DraftIs(os, |os|, d)
    ensures Enumerates(os, d.observations)
  {
    hide Frame.Valid, Admissible;
  }

  lemma SeriesTimes(ctx: SessionContext, os: seq<Frame>, d: Draft)
    requires Series(ctx, os) && DraftIs(os, |os|, d)
    requires forall k :: k in d.observations ==> d.observations[k].Valid()
    ensures LastVideoTimes(BufferOf(ctx, os, d).lastVideoTimes, d.observations)
    ensures OffsetsForward(d.observations) && VideoTimeForward(d.observations)
  {
    hide Frame.Valid, Admissible, SourceHits;
    SeriesForward(ctx, os, d);
    var lasts := BufferOf(ctx, os, d).lastVideoTimes;
    forall e | e in lasts
      ensures LastAttained(e, lasts[e], d.observations)
      ensures forall k :: k in d.observations && d.observations[k].epoch == e ==> d.observations[k].videoTime <= lasts[e]
    {
      TimeIs(ctx, os, |os|, e);
      EpochTimes(ctx, os, d, e);
    }
  }

  lemma EpochTimes(ctx: SessionContext, os: seq<Frame>, d: Draft, e: nat)
    requires Series(ctx, os) && DraftIs(os, |os|, d) && e in EpochsIn(d.observations)
    ensures LastAttained(e, TimeIn(os, |os|, e), d.observations)
    ensures forall k :: k in d.observations && d.observations[k].epoch == e ==>
              d.observations[k].videoTime <= TimeIn(os, |os|, e)
  {
    hide Series, Frame.Valid, Admissible, TimeIn, Among, LastAttained, Stored;
    TimeIs(ctx, os, |os|, e);
    var k :| k in d.observations && d.observations[k].epoch == e;
    var i := PlaceOf(os, d.observations[k]);
    var last :| 0 <= last < |os| && os[last].epoch == e && os[last].videoTime == TimeIn(os, |os|, e);
    AttainedBy(os, d.observations, last, e);
    forall k | k in d.observations && d.observations[k].epoch == e
      ensures d.observations[k].videoTime <= TimeIn(os, |os|, e)
    {
      var p := PlaceOf(os, d.observations[k]);
    }
  }

  lemma PlaceOf(os: seq<Frame>, f: Frame) returns (i: nat)
    requires Among(os, |os|, f)
    ensures i < |os| && os[i] == f
  {
    i :| 0 <= i < |os| && os[i] == f;
  }

  lemma AttainedBy(os: seq<Frame>, m: map<Key, Frame>, i: nat, e: nat)
    requires i < |os| && Stored(os, |os|, m) && os[i].epoch == e
    ensures LastAttained(e, os[i].videoTime, m)
  {
    assert m[os[i].FrameKey()] == os[i];
  }

  lemma SeriesForward(ctx: SessionContext, os: seq<Frame>, d: Draft)
    requires Series(ctx, os) && DraftIs(os, |os|, d)
    ensures OffsetsForward(d.observations) && VideoTimeForward(d.observations)
  {
    hide Frame.Valid, Admissible;
    forall j, k | j in d.observations && k in d.observations
      ensures d.observations[j].sessionOffset == d.observations[k].sessionOffset
      ensures d.observations[j].sequence < d.observations[k].sequence ==>
                d.observations[j].videoTime <= d.observations[k].videoTime
    {
      assert Among(os, |os|, d.observations[j]) && Among(os, |os|, d.observations[k]);
    }
  }

  lemma SeriesStill(ctx: SessionContext, os: seq<Frame>, d: Draft)
    requires Series(ctx, os) && DraftIs(os, |os|, d)
    ensures forall k :: k in d.observations ==> d.observations[k].Valid()
  {
    hide Frame.Valid, Admissible;
    forall k | k in d.observations ensures d.observations[k].Valid() {
      assert Among(os, |os|, d.observations[k]);
    }
  }

  /** Whatever order the dictionary yields, aggregation sees the series. */
  lemma SeriesOrdered(ctx: SessionContext, os: seq<Frame>, b: Buffer, observations: seq<Frame>)
    requires Series(ctx, os) && BufferInv(ctx, b) && ContextValid(ctx)
    requires Enumerates(os, b.observations) && Enumerates(observations, b.observations)
    ensures Ordered(observations) == os && Snapshotted(ctx, b, observations) && |observations| == |os|
  {
    hide Frame.Valid, Admissible, BufferInv, Enumerates, UniqueSequences;
    EnumerationsAgree(os, observations, b.observations);
    BufferSequences(ctx, b, os);
    OrderedUnique(os, observations);
    FrameOrderTotal(multiset(os));
    SortSorted(FrameLess, os);
    SortElements(FrameLess, os);
    SortedUnique(FrameLess, Ordered(os), os);
    SameLength(os, observations);
    SnapshotHolds(ctx, b, observations);
  }
}
