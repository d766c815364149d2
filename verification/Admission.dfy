/**
 The lock-held part of `V2RecommendationStore.append_batch` as the original runs it: loops over
 prospective copies, adjacency checks on sorted lists, and one publication at the end.
 */
module Admission {
  import opened Common
  import opened Observations
  import opened Sorting
  import opened Ingestion
  import opened EvidenceSummary
  import opened EvidenceFacts
  import opened Snapshots

  // ----- The admission loop -----

  method AdmitBatch(buffer: Buffer, os: seq<Frame>) returns (r: Result<(Draft, bool), ErrorCode>)
    ensures r == AdmitAll(buffer.Drafted(), os)
  {
    hide AdmitFrame;
    var draft, changed := buffer.Drafted(), false;
    assert AdmitAll(draft, os[..0]) == Ok((draft, false));
    for i := 0 to |os|
      invariant AdmitAll(buffer.Drafted(), os[..i]) == Ok((draft, changed))
    {
      assert os[..i + 1][..i] == os[..i];
      var step := AdmitFrame(draft, os[i]);
      if step.Err? {
        AdmitStops(buffer.Drafted(), os, i + 1);
        return Err(step.error);
      }
      draft, changed := step.value.0, changed || step.value.1;
    }
    assert os[..|os|] == os;
    r := Ok((draft, changed));
  }

  /** Once an observation is refused, the whole batch is refused with its error. */
  lemma {:induction false} AdmitStops(d: Draft, os: seq<Frame>, n: nat)
    requires n <= |os| && AdmitAll(d, os[..n]).Err?
    ensures AdmitAll(d, os) == AdmitAll(d, os[..n])
    decreases |os| - n
  {
    hide AdmitFrame;
    if n < |os| {
      assert os[..n + 1][..n] == os[..n];
      AdmitStops(d, os, n + 1);
    } else {
      assert os[..n] == os;
    }
  }

  // ----- Session offsets -----

  /** `any(current < previous for previous, current in zip(offsets, offsets[1:]))`, negated */
  method OffsetsNondecreasing(fs: seq<Frame>) returns (forward: bool)
    ensures forward <==> OffsetsAscend(fs)
  {
    if fs == [] {
      return true;
    }
    for i := 1 to |fs|
      invariant forall j, k :: 0 <= j < k < i && k < |fs| ==> fs[j].sessionOffset <= fs[k].sessionOffset
    {
      if fs[i].sessionOffset < fs[i - 1].sessionOffset {
        return false;
      }
    }
    forward := true;
  }

  /** The adjacency check on the sorted frames decides the order property of the dictionary. */
  lemma SortedOffsets(m: map<Key, Frame>, index: map<nat, Key>, observations: seq<Frame>)
    requires Enumerates(observations, m) && Indexed(m, index)
    ensures OffsetsAscend(Ordered(observations)) <==> OffsetsForward(m)
  {
    hide Enumerates, OffsetsAscend, OffsetsForward, Indexed, UniqueSequences, TotalOn, Sorted, Ordered;
    OrderedMembers(observations);
    SequencesUnique(observations, m, index);
    OrderedDistinct(observations, m);
    FrameOrderTotal(multiset(observations));
    SortedIs(observations);
    if OffsetsForward(m) {
      OffsetsInOrder(Ordered(observations), observations, m);
    }
    if OffsetsAscend(Ordered(observations)) {
      OffsetsFromOrder(Ordered(observations), observations, m);
    }
  }

  lemma SortedIs(observations: seq<Frame>)
    requires TotalOn(FrameLess, multiset(observations))
    ensures Sorted(FrameLess, Ordered(observations))
  {
    SortSorted(FrameLess, observations);
  }

  lemma FramePlace(fs: seq<Frame>, observations: seq<Frame>, m: map<Key, Frame>, k: Key) returns (i: nat)
    requires Enumerates(observations, m) && (forall f :: f in fs <==> f in observations) && k in m
    ensures i < |fs| && fs[i] == m[k]
  {
    assert m[k] in fs;
    i :| 0 <= i < |fs| && fs[i] == m[k];
  }

  lemma OffsetsFromOrder(fs: seq<Frame>, observations: seq<Frame>, m: map<Key, Frame>)
    requires Enumerates(observations, m) && (forall f :: f in fs <==> f in observations)
    requires TotalOn(FrameLess, multiset(fs)) && Sorted(FrameLess, fs) && OffsetsAscend(fs)
    ensures OffsetsForward(m)
  {
    hide Enumerates, FrameLess;
    forall j, k | j in m && k in m && FrameLess(m[j], m[k]) ensures m[j].sessionOffset <= m[k].sessionOffset {
      var a := FramePlace(fs, observations, m, j);
      var b := FramePlace(fs, observations, m, k);
      PlacesInOrder(fs, a, b);
    }
  }

  lemma PlacesInOrder(fs: seq<Frame>, a: nat, b: nat)
    requires TotalOn(FrameLess, multiset(fs)) && Sorted(FrameLess, fs)
    requires a < |fs| && b < |fs| && FrameLess(fs[a], fs[b])
    ensures a < b
  {
    hide FrameLess;
    assert fs[a] in multiset(fs) && fs[b] in multiset(fs);
  }

  // ----- Video times inside one epoch -----

  function InEpoch(fs: seq<Frame>, epoch: nat): (kept: seq<Frame>)
    ensures forall f :: f in kept <==> f in fs && f.epoch == epoch
    ensures (forall i, j :: 0 <= i < j < |fs| ==> fs[i].sequence != fs[j].sequence) ==>
      forall i, j :: 0 <= i < j < |kept| ==> kept[i].sequence != kept[j].sequence
  {
    if fs == [] then []
    else
      assert fs == [fs[0]] + fs[1..];
      (if fs[0].epoch == epoch then [fs[0]] else []) + InEpoch(fs[1..], epoch)
  }

  predicate SequenceLess(a: Frame, b: Frame) {
    a.sequence < b.sequence
  }

  ghost predicate TimesAscend(fs: seq<Frame>) {
    forall i, j :: 0 <= i < j < |fs| ==> fs[i].videoTime <= fs[j].videoTime
  }

  method TimesNondecreasing(fs: seq<Frame>) returns (forward: bool)
    ensures forward <==> TimesAscend(fs)
  {
    if fs == [] {
      return true;
    }
    for i := 1 to |fs|
      invariant forall j, k :: 0 <= j < k < i && k < |fs| ==> fs[j].videoTime <= fs[k].videoTime
    {
      if fs[i].videoTime < fs[i - 1].videoTime {
        return false;
      }
    }
    forward := true;
  }

  /** No two frames of one epoch go back in video time. */
  ghost predicate EpochForward(fs: seq<Frame>, epoch: nat) {
    forall a, b :: a in fs && b in fs && a.epoch == epoch && SequenceBefore(a, b) ==> a.videoTime <= b.videoTime
  }

  lemma SequenceOrderTotal(fs: seq<Frame>)
    requires DistinctSequences(fs)
    ensures TotalOn(SequenceLess, multiset(fs))
  {
    forall a, b | a in multiset(fs) && b in multiset(fs) && a != b ensures SequenceLess(a, b) || SequenceLess(b, a) {
      assert a in fs && b in fs;
    }
  }

  lemma SortKeepsSequences(own: seq<Frame>)
    requires DistinctSequences(own)
    ensures DistinctSequences(Sort(SequenceLess, own))
  {
    var sorted := Sort(SequenceLess, own);
    SortElements(SequenceLess, own);
    SortMembers(SequenceLess, own);
    NoRepeats(own);
    forall i, j | 0 <= i < j < |sorted| ensures sorted[i].sequence != sorted[j].sequence {
      assert sorted[i] in own && sorted[j] in own;
      RepeatCounts(sorted, i, j);
    }
  }

  lemma EpochOwn(fs: seq<Frame>, epoch: nat)
    requires DistinctSequences(fs)
    ensures DistinctSequences(InEpoch(fs, epoch))
  {
  }

  lemma TimesMean(sorted: seq<Frame>, fs: seq<Frame>, epoch: nat)
    requires forall f :: f in sorted <==> f in fs && f.epoch == epoch
    requires Sorted(SequenceLess, sorted) && DistinctSequences(sorted)
    ensures TimesAscend(sorted) <==> EpochForward(fs, epoch)
  {
    if EpochForward(fs, epoch) {
      forall i, j | 0 <= i < j < |sorted| ensures sorted[i].videoTime <= sorted[j].videoTime {
        assert sorted[i] in fs && sorted[j] in fs;
        assert sorted[i].sequence != sorted[j].sequence && !SequenceLess(sorted[j], sorted[i]);
      }
    }
  }

  /** The adjacency check on one epoch's frames, sorted by sequence, decides that epoch. */
  lemma EpochSorted(fs: seq<Frame>, epoch: nat)
    requires DistinctSequences(fs)
    ensures TimesAscend(Sort(SequenceLess, InEpoch(fs, epoch))) <==> EpochForward(fs, epoch)
  {
    hide TimesAscend, EpochForward, DistinctSequences, Sorted, TotalOn, SequenceLess, InEpoch, Sort;
    var own := InEpoch(fs, epoch);
    EpochOwn(fs, epoch);
    SequenceOrderTotal(own);
    SortSorted(SequenceLess, own);
    SortMembers(SequenceLess, own);
    SortKeepsSequences(own);
    TimesMean(Sort(SequenceLess, own), fs, epoch);
  }

  function Times(fs: seq<Frame>): seq<nat> {
    seq(|fs|, i requires 0 <= i < |fs| => fs[i].videoTime)
  }

  /** The largest video time of an epoch, and that it is attained. */
  ghost predicate LastOf(fs: seq<Frame>, epoch: nat, time: nat) {
    && (forall f :: f in fs && f.epoch == epoch ==> f.videoTime <= time)
    && (exists f :: f in fs && f.epoch == epoch && f.videoTime == time)
  }

  lemma LatestIs(fs: seq<Frame>, epoch: nat, sorted: seq<Frame>)
    requires forall f :: f in sorted <==> f in fs && f.epoch == epoch
    requires sorted != []
    ensures LastOf(fs, epoch, MaxOf(Times(sorted)))
  {
    var times := Times(sorted);
    forall f | f in fs && f.epoch == epoch ensures f.videoTime <= MaxOf(times) {
      var i :| 0 <= i < |sorted| && sorted[i] == f;
      assert times[i] == f.videoTime;
      assert times[i] in times;
    }
    var i :| 0 <= i < |times| && times[i] == MaxOf(times);
    assert sorted[i] in sorted;
  }

  lemma EpochOccupied(fs: seq<Frame>, epoch: nat)
    requires epoch in Epochs(fs)
    ensures InEpoch(fs, epoch) != []
  {
    var f :| f in fs && f.epoch == epoch;
    assert f in InEpoch(fs, epoch);
  }

  ghost predicate Settled(fs: seq<Frame>, epoch: nat, lasts: map<nat, nat>) {
    EpochForward(fs, epoch) && epoch in lasts && LastOf(fs, epoch, lasts[epoch])
  }

  lemma SettledKept(fs: seq<Frame>, epoch: nat, lasts: map<nat, nat>, other: nat, time: nat)
    requires Settled(fs, epoch, lasts) && epoch != other
    ensures Settled(fs, epoch, lasts[other := time])
  {
    hide EpochForward, LastOf;
  }

  /** The loop over `epoch_frames`. */
  method CheckEpochs(fs: seq<Frame>, before: map<nat, nat>) returns (forward: bool, lasts: map<nat, nat>)
    requires DistinctSequences(fs)
    ensures forward <==> forall e :: e in Epochs(fs) ==> EpochForward(fs, e)
    ensures forward ==> forall e :: e in Epochs(fs) ==> Settled(fs, e, lasts)
    ensures forward ==> lasts.Keys == before.Keys + (set e | e in Epochs(fs))
  {
    hide DistinctSequences, EpochForward, Epochs, Settled, TimesAscend, InEpoch, LastOf, Sort;
    var epochs := Epochs(fs);
    lasts := before;
    for i := 0 to |epochs|
      invariant forall k :: 0 <= k < i ==> Settled(fs, epochs[k], lasts) && EpochForward(fs, epochs[k])
      invariant lasts.Keys == before.Keys + (set k | 0 <= k < i :: epochs[k])
    {
      var epoch := epochs[i];
      EpochOccupied(fs, epoch);
      var bySequence := Sort(SequenceLess, InEpoch(fs, epoch));
      EpochSorted(fs, epoch);
      SortMembers(SequenceLess, InEpoch(fs, epoch));
      SortElements(SequenceLess, InEpoch(fs, epoch));
      var ascending := TimesNondecreasing(bySequence);
      if !ascending {
        assert epoch in epochs;
        forward := false;
        return;
      }
      InEpochMembers(fs, epoch);
      LatestIs(fs, epoch, bySequence);
      forall k | 0 <= k < i ensures Settled(fs, epochs[k], lasts[epoch := MaxOf(Times(bySequence))]) {
        SettledKept(fs, epochs[k], lasts, epoch, MaxOf(Times(bySequence)));
      }
      lasts := lasts[epoch := MaxOf(Times(bySequence))];
      SettledNow(fs, epoch, lasts);
    }
    forward := true;
    forall e | e in epochs ensures Settled(fs, e, lasts) && EpochForward(fs, e) {
      var k :| 0 <= k < |epochs| && epochs[k] == e;
    }
  }

  lemma InEpochMembers(fs: seq<Frame>, epoch: nat)
    ensures forall f :: f in InEpoch(fs, epoch) <==> f in fs && f.epoch == epoch
  {
  }

  lemma SettledNow(fs: seq<Frame>, epoch: nat, lasts: map<nat, nat>)
    requires EpochForward(fs, epoch) && epoch in lasts && LastOf(fs, epoch, lasts[epoch])
    ensures Settled(fs, epoch, lasts)
  {
  }

  /** All epochs forward is the dictionary's order property. */
  lemma EpochsForward(fs: seq<Frame>, m: map<Key, Frame>)
    requires Enumerates(fs, m)
    ensures (forall e :: e in Epochs(fs) ==> EpochForward(fs, e)) <==> VideoTimeForward(m)
  {
    if forall e :: e in Epochs(fs) ==> EpochForward(fs, e) {
      forall j, k | j in m && k in m && SequenceBefore(m[j], m[k]) ensures m[j].videoTime <= m[k].videoTime {
        assert m[j] in fs && m[k] in fs;
        assert m[j].epoch in Epochs(fs);
      }
    }
    if VideoTimeForward(m) {
      forall e | e in Epochs(fs) ensures EpochForward(fs, e) {
        forall a, b | a in fs && b in fs && a.epoch == e && SequenceBefore(a, b) ensures a.videoTime <= b.videoTime {
          assert m[a.FrameKey()] == a && m[b.FrameKey()] == b;
        }
      }
    }
  }

  lemma EpochsSettled(fs: seq<Frame>, m: map<Key, Frame>, before: map<nat, nat>, lasts: map<nat, nat>)
    requires Enumerates(fs, m)
    requires forall e :: e in Epochs(fs) ==> Settled(fs, e, lasts)
    requires lasts.Keys == before.Keys + (set e | e in Epochs(fs))
    requires forall e :: e in before ==> exists f :: f in fs && f.epoch == e
    ensures LastVideoTimes(lasts, m)
  {
    hide EpochForward;
    forall k | k in m ensures m[k].epoch in lasts && m[k].videoTime <= lasts[m[k].epoch] {
      assert m[k] in fs;
      assert m[k].epoch in Epochs(fs);
    }
    forall e | e in lasts ensures LastAttained(e, lasts[e], m) {
      assert e in Epochs(fs);
      var f :| f in fs && f.epoch == e && f.videoTime == lasts[e];
      assert m[f.FrameKey()] == f;
    }
  }

  // ----- The whole batch -----

  /** Frames are never dropped by admission, so every epoch known before is still there. */
  lemma {:induction false} AdmissionKeeps(d: Draft, os: seq<Frame>)
    requires AdmitAll(d, os).Ok? && forall k :: k in d.observations ==> d.observations[k].FrameKey() == k
    ensures forall k :: k in d.observations ==> k in AdmitAll(d, os).value.0.observations
  {
    hide Merge;
    if os != [] {
      AdmissionKeeps(d, os[..|os| - 1]);
    }
  }

  lemma EpochsRemain(ctx: SessionContext, buffer: Buffer, os: seq<Frame>, fs: seq<Frame>)
    requires BufferInv(ctx, buffer) && AdmitAll(buffer.Drafted(), os).Ok?
    requires Enumerates(fs, AdmitAll(buffer.Drafted(), os).value.0.observations)
    ensures forall e :: e in buffer.lastVideoTimes ==> exists f :: f in fs && f.epoch == e
  {
    hide AdmitAll, OffsetsForward, VideoTimeForward, Indexed, HighestEpoch, BatchTables, SourceHits, Frame.Valid, Admissible;
    AdmissionKeeps(buffer.Drafted(), os);
    var m := AdmitAll(buffer.Drafted(), os).value.0.observations;
    forall e | e in buffer.lastVideoTimes ensures exists f :: f in fs && f.epoch == e {
      assert LastAttained(e, buffer.lastVideoTimes[e], buffer.observations);
      var k :| k in buffer.observations && buffer.observations[k].epoch == e;
      assert k in m && m[k] in fs && m[k].FrameKey() == k;
    }
  }

  lemma DraftSequences(m: map<Key, Frame>, index: map<nat, Key>, fs: seq<Frame>)
    requires Indexed(m, index) && Enumerates(fs, m)
    ensures DistinctSequences(fs)
  {
    SequencesUnique(fs, m, index);
    assert forall i, j :: 0 <= i < j < |fs| ==> fs[i] != fs[j];
    SequencesApart(fs);
  }

  /** The part of `append_batch` that decides and builds the new buffer. */
  method IngestBatch(ctx: SessionContext, buffer: Buffer, batch: Batch)
    returns (r: Result<(Buffer, AckStatus), ErrorCode>)
    requires BufferInv(ctx, buffer) && batch.Valid()
    requires forall o :: o in batch.observations ==> Admissible(ctx, o)
    ensures Ingests(ctx, buffer, batch, r)
    ensures r.Ok? ==> BufferInv(ctx, r.value.0)
    ensures r.Ok? ==> (r.value.1 == Accepted <==> r.value.0.observations != buffer.observations)
  {
    hide BufferInv, AdmitAll, OffsetsForward, VideoTimeForward, LastVideoTimes, DraftInv, Enumerates, Indexed, OffsetsAscend,
      DistinctSequences, EpochForward, Epochs, Settled, Ordered, Admissible, SourceHits;
    InvValid(ctx, buffer);
    if batch.batchId in buffer.fingerprints {
      r := if buffer.fingerprints[batch.batchId] != batch then Err(BatchIdConflict) else Ok((buffer, Duplicate));
      return;
    }
    if batch.batchSequence in buffer.batchSequences && buffer.batchSequences[batch.batchSequence] != batch.batchId {
      return Err(BatchSequenceConflict);
    }
    var admitted := AdmitBatch(buffer, batch.observations);
    if admitted.Err? {
      return Err(admitted.error);
    }
    var (draft, changed) := admitted.value;
    AdmittedDraft(ctx, buffer, batch);
    DraftParts(ctx, draft);
    var fs := TakeSnapshot(draft.observations);
    DraftSequences(draft.observations, draft.sequenceIndex, fs);
    SortedOffsets(draft.observations, draft.sequenceIndex, fs);
    var offsets := OffsetsNondecreasing(Ordered(fs));
    if !offsets {
      return Err(SessionOffsetConflict);
    }
    var forward, lasts := CheckEpochs(fs, buffer.lastVideoTimes);
    EpochsForward(fs, draft.observations);
    if !forward {
      return Err(VideoTimeRegression);
    }
    EpochsRemain(ctx, buffer, batch.observations, fs);
    EpochsSettled(fs, draft.observations, buffer.lastVideoTimes, lasts);
    r := Ok((Buffer(draft.observations, SourceHits(ctx, draft.observations), draft.sequenceIndex,
                    buffer.fingerprints[batch.batchId := batch],
                    buffer.batchSequences[batch.batchSequence := batch.batchId], draft.highestEpoch, lasts),
             if changed then Accepted else Duplicate));
    IngestPreservesInv(ctx, buffer, batch, r);
    AcceptedMeansChanged(ctx, buffer, batch, r);
  }

  lemma InvValid(ctx: SessionContext, buffer: Buffer)
    requires BufferInv(ctx, buffer)
    ensures forall k :: k in buffer.observations ==> buffer.observations[k].Valid()
  {
    hide Frame.Valid, OffsetsForward, VideoTimeForward, LastVideoTimes, Indexed, HighestEpoch, BatchTables, SourceHits,
      Admissible;
  }

  lemma AdmittedDraft(ctx: SessionContext, buffer: Buffer, batch: Batch)
    requires BufferInv(ctx, buffer) && batch.Valid() && AdmitAll(buffer.Drafted(), batch.observations).Ok?
    requires forall o :: o in batch.observations ==> Admissible(ctx, o)
    ensures DraftInv(ctx, AdmitAll(buffer.Drafted(), batch.observations).value.0)
  {
    hide DraftInv, OffsetsForward, VideoTimeForward, LastVideoTimes, BatchTables, SourceHits, Admissible, Frame.Valid,
      AdmitAll;
    AdmitAllInv(ctx, buffer.Drafted(), batch.observations);
  }

  lemma DraftParts(ctx: SessionContext, d: Draft)
    requires DraftInv(ctx, d)
    ensures Indexed(d.observations, d.sequenceIndex)
    ensures forall k :: k in d.observations ==> d.observations[k].Valid() && d.observations[k].FrameKey() == k
  {
    hide Frame.Valid, Admissible, Indexed, HighestEpoch;
  }
}
