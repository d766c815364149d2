/**
 Whole histories of accepted batches. Merging is only a partial join, so some orders are rejected;
 but any two orders that are accepted end in the same buffer, and redelivery is absorbed.
 */
module Confluence {
  import opened Common
  import opened Observations
  import opened Ingestion

  /** The batch passed the checks before the lock and was answered without an error. */
  ghost predicate Accepts(ctx: SessionContext, before: Buffer, batch: Batch, after: Buffer)
    requires forall k :: k in before.observations ==> before.observations[k].Valid()
  {
    && batch.Valid() && CheckBatch(ctx, ctx.sessionId, batch).None?
    && (Ingests(ctx, before, batch, Ok((after, Accepted))) || Ingests(ctx, before, batch, Ok((after, Duplicate))))
  }

  /** `buffers[i]` is the buffer after the first `i` batches, all of them accepted. */
  ghost predicate History(ctx: SessionContext, batches: seq<Batch>, buffers: seq<Buffer>) {
    && |buffers| == |batches| + 1 && buffers[0] == EmptyBuffer
    && (forall i :: 0 <= i < |batches| ==>
      && (forall k :: k in buffers[i].observations ==> buffers[i].observations[k].Valid())
      && Accepts(ctx, buffers[i], batches[i], buffers[i + 1]))
  }

  function Submitted(batches: set<Batch>): set<Frame> {
    set b, o | b in batches && o in b.observations :: o
  }

  ghost predicate GazeFrom(f: Frame, os: set<Frame>) {
    exists o :: o in os && o.FrameKey() == f.FrameKey() && o.gaze == f.gaze
  }

  ghost predicate ExpressionFrom(f: Frame, os: set<Frame>) {
    exists o :: o in os && o.FrameKey() == f.FrameKey() && o.expression == f.expression
  }

  ghost predicate AttentionFrom(f: Frame, os: set<Frame>) {
    exists o :: o in os && o.FrameKey() == f.FrameKey() && o.attention == f.attention
  }

  ghost predicate DerivedFrom(f: Frame, os: set<Frame>) {
    exists o :: o in os && o.FrameKey() == f.FrameKey() && o.derived == f.derived
  }

  ghost predicate Sourced(f: Frame, os: set<Frame>) {
    GazeFrom(f, os) && ExpressionFrom(f, os) && AttentionFrom(f, os) && DerivedFrom(f, os)
  }

  /**
   Every buffered frame is the least upper bound of the submissions with its key: above all of them,
   and each of its modalities was submitted.
   */
  ghost predicate Joined(observations: map<Key, Frame>, os: set<Frame>) {
    && (forall o :: o in os ==> o.FrameKey() in observations && FrameLeq(o, observations[o.FrameKey()]))
    && (forall k :: k in observations ==> observations[k].FrameKey() == k && Sourced(observations[k], os))
  }

  /** The buffer is exactly what the set of accepted batches determines. */
  ghost predicate Represents(b: Buffer, batches: set<Batch>) {
    && (forall x :: x in batches ==> x.batchId in b.fingerprints && b.fingerprints[x.batchId] == x)
    && (forall id :: id in b.fingerprints ==> b.fingerprints[id] in batches)
    && Joined(b.observations, Submitted(batches))
  }

  lemma LeqTransitive(a: Frame, b: Frame, c: Frame)
    requires FrameLeq(a, b) && FrameLeq(b, c)
    ensures FrameLeq(a, c)
  {
  }

  lemma SourcedMonotone(f: Frame, os: set<Frame>, more: set<Frame>)
    requires Sourced(f, os) && os <= more
    ensures Sourced(f, more)
  {
  }

  /** Each modality of `f` is one of `a` or one of `b`. */
  predicate Mixes(f: Frame, a: Frame, b: Frame) {
    && f.FrameKey() == a.FrameKey() == b.FrameKey()
    && (f.gaze == a.gaze || f.gaze == b.gaze) && (f.expression == a.expression || f.expression == b.expression)
    && (f.attention == a.attention || f.attention == b.attention) && (f.derived == a.derived || f.derived == b.derived)
  }

  lemma MixSourced(f: Frame, a: Frame, b: Frame, os: set<Frame>)
    requires Mixes(f, a, b) && Sourced(a, os) && b in os
    ensures Sourced(f, os)
  {
  }

  lemma SelfSourced(f: Frame, os: set<Frame>)
    requires f in os
    ensures Sourced(f, os)
  {
  }

  /** Admitting a frame touches one key, and puts there a join of what was there and what came. */
  lemma AdmitFrameShape(d: Draft, o: Frame)
    requires o.Valid() && AdmitFrame(d, o).Ok?
    requires o.FrameKey() in d.observations ==> d.observations[o.FrameKey()].Valid()
    ensures var next, key := AdmitFrame(d, o).value.0.observations, o.FrameKey();
      && key in next && next == d.observations[key := next[key]]
      && next[key].Valid() && next[key].FrameKey() == key && FrameLeq(o, next[key])
      && (key !in d.observations ==> next[key] == o)
      && (key in d.observations ==>
        FrameLeq(d.observations[key], next[key]) && Mixes(next[key], d.observations[key], o))
  {
    if o.FrameKey() in d.observations {
      MergeIsJoin(d.observations[o.FrameKey()], o);
    }
  }

  lemma AdmitFrameJoins(d: Draft, os: set<Frame>, o: Frame)
    requires Joined(d.observations, os) && o.Valid() && AdmitFrame(d, o).Ok?
    requires forall k :: k in d.observations ==> d.observations[k].Valid()
    ensures Joined(AdmitFrame(d, o).value.0.observations, os + {o})
    ensures forall k :: k in AdmitFrame(d, o).value.0.observations ==>
      AdmitFrame(d, o).value.0.observations[k].Valid()
  {
    hide AdmitFrame, Merge, Frame.Valid, FrameLess, FrameLeq, Mixes, Sourced;
    AdmitFrameShape(d, o);
    var key, more, next := o.FrameKey(), os + {o}, AdmitFrame(d, o).value.0.observations;
    assert o in more;
    forall k | k in next ensures next[k].FrameKey() == k && Sourced(next[k], more) {
      if k in d.observations {
        SourcedMonotone(d.observations[k], os, more);
        if k == key {
          MixSourced(next[key], d.observations[key], o, more);
        }
      } else {
        SelfSourced(o, more);
      }
    }
    forall x | x in more ensures x.FrameKey() in next && FrameLeq(x, next[x.FrameKey()]) {
      if x in os && x.FrameKey() == key {
        LeqTransitive(x, d.observations[key], next[key]);
      }
    }
  }

  function Elements(os: seq<Frame>): set<Frame> {
    set o | o in os
  }

  lemma {:induction false} AdmitAllJoins(d: Draft, os: set<Frame>, batch: seq<Frame>)
    requires Joined(d.observations, os) && AdmitAll(d, batch).Ok?
    requires forall k :: k in d.observations ==> d.observations[k].Valid()
    requires forall o :: o in batch ==> o.Valid()
    ensures Joined(AdmitAll(d, batch).value.0.observations, os + Elements(batch))
    ensures forall k :: k in AdmitAll(d, batch).value.0.observations ==>
      AdmitAll(d, batch).value.0.observations[k].Valid()
  {
    hide AdmitFrame, Merge, Joined, Frame.Valid;
    if batch == [] {
      assert os + Elements(batch) == os;
    } else {
      var init, last := batch[..|batch| - 1], batch[|batch| - 1];
      AdmitAllJoins(d, os, init);
      AdmitFrameJoins(AdmitAll(d, init).value.0, os + Elements(init), last);
      assert batch == init + [last];
      assert os + Elements(init) + {last} == os + Elements(batch);
    }
  }

  lemma IngestRepresents(ctx: SessionContext, before: Buffer, batches: set<Batch>, batch: Batch, after: Buffer,
                         status: AckStatus)
    requires Represents(before, batches) && batch.Valid()
    requires forall k :: k in before.observations ==> before.observations[k].Valid()
    requires Ingests(ctx, before, batch, Ok((after, status)))
    ensures Represents(after, batches + {batch})
  {
    hide AdmitAll, Joined, Frame.Valid, OffsetsForward, VideoTimeForward, LastVideoTimes, SourceHits;
    if batch.batchId in before.fingerprints {
      assert batches + {batch} == batches;
    } else {
      AdmitAllJoins(before.Drafted(), Submitted(batches), batch.observations);
      assert Submitted(batches) + Elements(batch.observations) == Submitted(batches + {batch});
    }
  }

  lemma AcceptRepresents(ctx: SessionContext, before: Buffer, batches: set<Batch>, batch: Batch, after: Buffer)
    requires BufferInv(ctx, before) && Represents(before, batches)
    requires Accepts(ctx, before, batch, after)
    ensures BufferInv(ctx, after) && Represents(after, batches + {batch})
  {
    hide Represents, Ingests, CheckObservations, Frame.Valid;
    if Ingests(ctx, before, batch, Ok((after, Accepted))) {
      IngestPreservesInv(ctx, before, batch, Ok((after, Accepted)));
      IngestRepresents(ctx, before, batches, batch, after, Accepted);
    } else {
      IngestPreservesInv(ctx, before, batch, Ok((after, Duplicate)));
      IngestRepresents(ctx, before, batches, batch, after, Duplicate);
    }
  }

  function BatchSet(batches: seq<Batch>): set<Batch> {
    set b | b in batches
  }

  lemma EmptyRepresents(ctx: SessionContext)
    ensures BufferInv(ctx, EmptyBuffer) && Represents(EmptyBuffer, BatchSet([]))
  {
    EmptyInv(ctx);
  }

  lemma HistoryPrefix(ctx: SessionContext, batches: seq<Batch>, buffers: seq<Buffer>)
    requires History(ctx, batches, buffers) && batches != []
    ensures History(ctx, batches[..|batches| - 1], buffers[..|batches|])
  {
    hide Accepts, Frame.Valid;
  }

  /** Every reachable buffer satisfies the invariant and is determined by its accepted batches. */
  lemma {:induction false} HistoryRepresents(ctx: SessionContext, batches: seq<Batch>, buffers: seq<Buffer>)
    requires History(ctx, batches, buffers)
    ensures BufferInv(ctx, buffers[|batches|]) && Represents(buffers[|batches|], BatchSet(batches))
  {
    hide Ingests, Frame.Valid, CheckBatch, Accepts, BufferInv, Represents, Submitted, SourceHits;
    if batches == [] {
      EmptyRepresents(ctx);
    } else {
      var n := |batches| - 1;
      HistoryPrefix(ctx, batches, buffers);
      HistoryRepresents(ctx, batches[..n], buffers[..n + 1]);
      AcceptRepresents(ctx, buffers[n], BatchSet(batches[..n]), batches[n], buffers[n + 1]);
      assert batches == batches[..n] + [batches[n]];
      assert BatchSet(batches[..n]) + {batches[n]} == BatchSet(batches);
    }
  }

  // ----- Confluence -----

  lemma JoinedFrameUnique(f: Frame, g: Frame, os: set<Frame>)
    requires f.FrameKey() == g.FrameKey() && Sourced(f, os) && Sourced(g, os)
    requires forall o :: o in os && o.FrameKey() == f.FrameKey() ==> FrameLeq(o, f) && FrameLeq(o, g)
    ensures f == g
  {
  }

  lemma JoinedUnique(a: map<Key, Frame>, b: map<Key, Frame>, os: set<Frame>)
    requires Joined(a, os) && Joined(b, os)
    ensures a == b
  {
    forall k | k in a ensures k in b {
      assert GazeFrom(a[k], os);
    }
    forall k | k in b ensures k in a {
      assert GazeFrom(b[k], os);
    }
    forall k | k in a ensures a[k] == b[k] {
      JoinedFrameUnique(a[k], b[k], os);
    }
  }

  lemma TablesUnique(a: Buffer, b: Buffer, batches: set<Batch>)
    requires BatchTables(a.fingerprints, a.batchSequences) && BatchTables(b.fingerprints, b.batchSequences)
    requires Represents(a, batches) && Represents(b, batches)
    ensures a.fingerprints == b.fingerprints && a.batchSequences == b.batchSequences
  {
    forall id | id in a.fingerprints ensures id in b.fingerprints && b.fingerprints[id] == a.fingerprints[id] {
      assert a.fingerprints[id] in batches;
    }
    forall id | id in b.fingerprints ensures id in a.fingerprints {
      assert b.fingerprints[id] in batches;
    }
  }

  lemma RepresentedUnique(ctx: SessionContext, a: Buffer, b: Buffer, batches: set<Batch>)
    requires BufferInv(ctx, a) && BufferInv(ctx, b)
    requires Represents(a, batches) && Represents(b, batches)
    ensures a == b
  {
    hide Joined, FramesValid, OffsetsForward, VideoTimeForward, LastVideoTimes, SourceHits;
    JoinedUnique(a.observations, b.observations, Submitted(batches));
    TablesUnique(a, b, batches);
    LastVideoTimesUnique(a.lastVideoTimes, b.lastVideoTimes, a.observations);
    assert a.sequenceIndex == b.sequenceIndex by {
      hide Represents, BatchTables, HighestEpoch;
    }
  }

  /**
   Ingestion is confluent: two histories over the same batches, both fully accepted, end in the same
   observations, indices, epochs, video times, source hits and batch tables.
   */
  lemma Confluent(ctx: SessionContext, batches: seq<Batch>, buffers: seq<Buffer>,
                  batches': seq<Batch>, buffers': seq<Buffer>)
    requires History(ctx, batches, buffers) && History(ctx, batches', buffers')
    requires BatchSet(batches) == BatchSet(batches')
    ensures buffers[|batches|] == buffers'[|batches'|]
  {
    HistoryRepresents(ctx, batches, buffers);
    HistoryRepresents(ctx, batches', buffers');
    RepresentedUnique(ctx, buffers[|batches|], buffers'[|batches'|], BatchSet(batches));
  }

  /** Why "both accepted" is needed: three valid submissions, one order of which is refused. */
  lemma MergeOrderMatters() returns (a: Frame, b: Frame, c: Frame)
    ensures a.Valid() && b.Valid() && c.Valid()
    ensures Merge(a, b).Err?
    ensures Merge(a, c).Ok? && Merge(Merge(a, c).value.0, b) == Ok((Merge(a, c).value.0, false))
  {
    var gaze := Modality(Some(Gaze(Geometry.Point(0.5, 0.5), 1.0, "eye", "r1", "c1")), None);
    var missing := Some("not_observed");
    a := Frame("f1", 0, 0.0, 0.0, 0, 0, Modality(None, Some("blink")), Modality(None, missing),
               Modality(None, missing), Modality(None, missing));
    b := a.(gaze := Modality(None, Some("no_face")));
    c := a.(gaze := gaze);
    assert "blink"[0] != "no_face"[0];
    assert Merge(a, c) == Ok((c, true));
    assert Merge(c, b) == Ok((c, false));
  }

  // ----- Redelivery -----

  lemma BelowIsAbsorbed(current: Frame, o: Frame)
    requires FrameLeq(o, current)
    ensures Merge(current, o) == Ok((current, false))
  {
  }

  lemma {:induction false} RedeliveryAbsorbed(d: Draft, os: set<Frame>, again: seq<Frame>)
    requires Joined(d.observations, os) && Indexed(d.observations, d.sequenceIndex)
    requires forall o :: o in again ==> o in os
    ensures AdmitAll(d, again) == Ok((d, false))
  {
    if again != [] {
      var init, o := again[..|again| - 1], again[|again| - 1];
      RedeliveryAbsorbed(d, os, init);
      BelowIsAbsorbed(d.observations[o.FrameKey()], o);
      assert d.observations[o.FrameKey() := d.observations[o.FrameKey()]] == d.observations;
    }
  }

  /**
   Any selection of observations that were ever accepted can be sent again under a fresh batch id and
   an unused batch sequence: the answer is "duplicate" and no frame or frame index changes.
   */
  lemma Redelivered(ctx: SessionContext, batches: seq<Batch>, buffers: seq<Buffer>, again: Batch,
                    r: Result<(Buffer, AckStatus), ErrorCode>)
    requires History(ctx, batches, buffers) && again.Valid()
    requires forall o :: o in again.observations ==> o in Submitted(BatchSet(batches))
    requires again.batchId !in buffers[|batches|].fingerprints
    requires again.batchSequence !in buffers[|batches|].batchSequences
    requires forall k :: k in buffers[|batches|].observations ==> buffers[|batches|].observations[k].Valid()
    requires Ingests(ctx, buffers[|batches|], again, r)
    ensures r.Ok? && r.value.1 == Duplicate
    ensures r.value.0 == buffers[|batches|].(fingerprints := r.value.0.fingerprints,
                                             batchSequences := r.value.0.batchSequences)
    ensures CheckObservations(ctx, again.observations).None?
  {
    var b := buffers[|batches|];
    HistoryRepresents(ctx, batches, buffers);
    RedeliveryAbsorbed(b.Drafted(), Submitted(BatchSet(batches)), again.observations);
    LastVideoTimesUnique(b.lastVideoTimes, r.value.0.lastVideoTimes, b.observations);
    forall o | o in again.observations ensures Admissible(ctx, o) {
      var x :| x in BatchSet(batches) && o in x.observations;
      var i :| 0 <= i < |batches| && batches[i] == x;
      assert Accepts(ctx, buffers[i], x, buffers[i + 1]);
    }
  }
}
