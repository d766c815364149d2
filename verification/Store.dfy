/**
 The lock-protected session store (`v2_store.V2RecommendationStore`). Its two dictionaries, of session
 states and of the jobs handed out, are fields that every method reassigns; every method is proved to
 move them exactly as `SessionMemory` says and to keep the invariant.
 */
module Store {
  import opened Common
  import opened Observations
  import opened Ingestion
  import opened Admission
  import opened Snapshots
  import opened EvidenceSummary
  import opened SourceEvidence
  import opened Gate
  import opened Completion
  import opened Grounding
  import opened SessionMemory
  import opened SourceAoi
  import Aoi = AoiMetadata

  class V2RecommendationStore {
    const config: Config
    /** `get_context`, but for the v1-completion flag, which callers pass in */
    const repository: string -> SessionContext
    var states: map<string, Record>
    var jobs: map<nat, Job>

    constructor (config: Config, repository: string -> SessionContext)
      requires config.Valid() && forall s :: ContextValid(repository(s))
      ensures Valid() && Held() == EmptyMemory && this.config == config && this.repository == repository
    {
      this.config, this.repository, states, jobs := config, repository, map[], map[];
    }

    ghost function Held(): Memory
      reads this
    {
      Memory(states, jobs)
    }

    ghost predicate Valid()
      reads this
    {
      config.Valid() && (forall s :: ContextValid(repository(s))) && MemoryInv(config, repository, Held())
    }

    /** `cleanup_expired`: forgets expired sessions, and returns the requests whose rows must be failed. */
    method CleanupExpired(now: real) returns (orphans: set<Acceptance>)
      requires Valid()
      modifies this
      ensures Valid() && Held() == Swept(old(Held()), now) && orphans == Orphans(old(Held()), now)
    {
      hide MemoryInv, Swept, Orphans, OrphansAmong, PartlySwept, ContextValid;
      ghost var before := Held();
      var expired := set s | s in states && states[s].expiresAt <= now;
      var left := expired;
      ghost var done := {};
      orphans := {};
      PartlySweptStart(before, now);
      while left != {}
        invariant left <= expired && forall s :: s in done <==> s in expired && s !in left
        invariant Held() == PartlySwept(before, done, now) && orphans == OrphansAmong(before.sessions, done, now)
        decreases |left|
      {
        var s :| s in left;
        SweepRound(before, done, s, now, Held());
        left := left - {s};
        done := done + {s};
        var state := states[s];
        states := map k | k in states && k != s :: states[k];
        if state.status == Pending && state.accepted.Some? {
          orphans := orphans + {state.accepted.value};
          jobs := Cleared(jobs, state.activeJobId);
        }
      }
      PartlySweptEnd(before, done, now);
      SweepKeepsInv(config, repository, before, now);
    }

    /** The session's record, created on the spot if there is none. */
    method Open(session: string, now: real) returns (record: Record)
      requires Valid()
      modifies this`states
      ensures Valid() && record == Opened(old(Held()), session, now, config)
      ensures Held() == Put(old(Held()), session, record) && session in states
      ensures RecordInv(config, repository(session), session, record)
    {
      hide MemoryInv, RecordInv, ContextValid;
      OpenedInv(config, repository, Held(), session, now);
      if session !in states {
        states := states[session := NewRecord(now + config.collectingTtl)];
      }
      record := states[session];
      assert states == states[session := record];
    }

    /** `append_batch` */
    method AppendBatch(session: string, batch: Batch, completedV1: bool, now: real)
      returns (r: Result<AckStatus, ErrorCode>, orphans: set<Acceptance>)
      requires Valid() && batch.Valid()
      modifies this
      ensures Valid()
      ensures var ctx := repository(session).(completedV1 := completedV1);
        if CheckBatch(ctx, session, batch).Some? then
          Held() == old(Held()) && orphans == {} && r == Err(CheckBatch(ctx, session, batch).value)
        else
          orphans == Orphans(old(Held()), now)
          && Appends(config, ctx, Swept(old(Held()), now), session, batch, now, Held(), r)
      ensures r.Ok? ==>
        && session in states && states[session].status == Collecting
        && (r.value == Accepted <==> states[session].buffer.observations != Stored(Swept(old(Held()), now), session))
    {
      hide MemoryInv, RecordInv, ContextValid, Swept, Orphans, Ingests, CheckBatch, BufferInv, Frame.Valid, Admissible;
      var ctx := repository(session).(completedV1 := completedV1);
      ghost var before := Held();
      orphans := {};
      var refused := CheckBatch(ctx, session, batch);
      if refused.Some? {
        return Err(refused.value), {};
      }
      orphans := CleanupExpired(now);
      ghost var swept := Held();
      var record := Open(session, now);
      if record.status != Collecting {
        return Err(SessionCompleted), orphans;
      }
      CollectingBuffer(config, repository(session), ctx, session, record);
      CheckedBatch(ctx, session, batch);
      var outcome := IngestBatch(ctx, record.buffer, batch);
      match outcome {
        case Err(code) => r := Err(code);
        case Ok((buffer, ack)) =>
          if batch.batchId !in record.buffer.fingerprints {
            states := states[session := record.(buffer := buffer, expiresAt := now + config.collectingTtl)];
          }
          r := Ok(ack);
      }
      PublishedAs(config, swept, session, record, batch, now, outcome, Held(), r);
      AppendKeepsInv(config, repository, ctx, swept, session, batch, now, Held(), r);
      if r.Ok? {
        AcceptedBatchChanged(config, repository, ctx, swept, session, batch, now, Held(), r);
      }
    }

    /** What follows aggregation: the immediate decision, the job, or nothing at all. */
    method Settle(session: string, prepared: Prepared, jobId: nat, now: real) returns (r: BeginResult)
      requires session in states
      modifies this
      ensures var accepted, record := Acceptance(config.scope, session), old(states[session]);
        match prepared
        case Immediate(d) =>
          && states == old(states)[session := record.(status := Terminal, decision := Some(d),
                                                      expiresAt := now + config.decisionTtl)]
          && jobs == old(jobs) && r == DecidedAtOnce(accepted)
        case Refused => Held() == old(Held()) && r == Escaped
        case Dispatch(request) =>
          && states == old(states)[session := record.(activeJobId := Some(jobId))]
          && jobs == old(jobs)[jobId := Job(session, accepted, Some(request))] && r == Started(accepted, jobId)
    {
      var accepted := Acceptance(config.scope, session);
      match prepared {
        case Immediate(decision) =>
          states := states[session := states[session].(decision := Some(decision), status := Terminal,
                                                       expiresAt := now + config.decisionTtl)];
          r := DecidedAtOnce(accepted);
        case Refused =>
          r := Escaped;
        case Dispatch(request) =>
          states := states[session := states[session].(activeJobId := Some(jobId))];
          jobs := jobs[jobId := Job(session, accepted, Some(request))];
          r := Started(accepted, jobId);
      }
    }

    /** The lock-held part of `begin_completion` on a collecting session. */
    method BeginCollecting(ctx: SessionContext, session: string, record: Record, modelId: string, jobId: nat, now: real)
      returns (r: BeginResult)
      requires session in states && states[session] == record && record.status == Collecting
      requires ContextValid(ctx) && BufferInv(ctx, record.buffer)
      modifies this
      ensures exists observations: seq<Frame> ::
        && Enumerates(observations, record.buffer.observations)
        && (forall o :: o in observations ==> o.Valid())
        && (ctx.source.Some? ==> HitsKnown(record.buffer.sourceHits, ctx.source.value.sources))
        && (Held(), r) == Begun(config, old(Held()), session, record,
                                Prepare(ctx, observations, record.buffer.sourceHits, config.settings, modelId,
                                        Acceptance(config.scope, session)), jobId, now)
    {
      hide BufferInv, Frame.Valid, Prepare, HitsKnown, Enumerates, Begun, ContextValid;
      ghost var swept := Held();
      BufferKeys(ctx, record.buffer);
      var observations := TakeSnapshot(record.buffer.observations);
      SnapshotReadable(ctx, record.buffer, observations);
      var accepted := Acceptance(config.scope, session);
      states := states[session := record.(status := Pending, accepted := Some(accepted), buffer := EmptyBuffer,
                                          expiresAt := now + config.pendingTtl)];
      var prepared := PrepareCompletion(ctx, observations, record.buffer.sourceHits, config.settings, modelId, accepted);
      r := Settle(session, prepared, jobId, now);
      BegunIs(config, swept, session, record, prepared, jobId, now, Held(), r);
    }

    /**
     `begin_completion`. `Escaped` is the exception that the closed data models raise while aggregating:
     the session stays pending, without frames and without a job.
     */
    method BeginCompletion(session: string, modelId: string, completedV1: bool, jobId: nat, now: real)
      returns (r: BeginResult, orphans: set<Acceptance>)
      requires Valid() && jobId !in jobs
      modifies this
      ensures Valid()
      ensures if repository(session).source.Some? && !repository(session).source.value.approved then
                Held() == old(Held()) && orphans == {} && r == Refusal(AoiMetadataUnapproved)
              else
                orphans == Orphans(old(Held()), now)
                && Begins(config, repository(session).(completedV1 := completedV1), Swept(old(Held()), now), session, modelId,
                          jobId, now, Held(), r)
    {
      hide MemoryInv, RecordInv, ContextValid, Swept, Orphans, BufferInv, Frame.Valid, Prepare, HitsKnown, Enumerates, Begun,
        SourceMetadata.Valid, SameSession, Opened, Put;
      var ctx := repository(session).(completedV1 := completedV1);
      SameButFlag(repository(session), completedV1);
      ContextFlag(repository(session), ctx);
      ghost var before := Held();
      orphans := {};
      if ctx.source.Some? && !ctx.source.value.approved {
        return Refusal(AoiMetadataUnapproved), {};
      }
      orphans := CleanupExpired(now);
      ghost var swept := Held();
      var record := Open(session, now);
      if record.status != Collecting {
        r := if record.accepted.Some? then AlreadyBegun(record.accepted.value) else Refusal(RecommendationMissing);
        return;
      }
      if completedV1 {
        return Refusal(SessionCompleted), orphans;
      }
      CollectingBuffer(config, repository(session), ctx, session, record);
      PutIs(swept, session, record);
      r := BeginCollecting(ctx, session, record, modelId, jobId, now);
      BegunOnOpened(config, swept, session, record, now);
      SweptJobsKnown(before, now);
      BeginKeepsInv(config, repository, ctx, swept, session, modelId, jobId, now, Held(), r);
    }

    /** `_commit_terminal`: publishes a terminal result for the still-active job only. */
    method CommitTerminal(session: string, jobId: nat, decision: Decision, now: real)
      returns (saved: bool, orphans: set<Acceptance>)
      requires Valid() && decision.Valid() && decision.accepted == Acceptance(config.scope, session)
      modifies this
      ensures Valid() && (Held(), saved) == Committed(config, Swept(old(Held()), now), session, jobId, decision, now)
      ensures orphans == Orphans(old(Held()), now)
    {
      hide MemoryInv, ContextValid, Swept, Orphans, Decision.Valid;
      orphans := CleanupExpired(now);
      CommitKeepsInv(config, repository, Held(), session, jobId, decision, now);
      if session !in states || states[session].status != Pending || states[session].activeJobId != Some(jobId) {
        return false, orphans;
      }
      states := states[session := states[session].(decision := Some(decision), status := Terminal, activeJobId := None,
                                                   buffer := EmptyBuffer, expiresAt := now + config.decisionTtl)];
      saved := true;
    }

    /** The end of `run_completion`: decide on the reply, commit, and release the job's request. */
    method FinishJob(jobId: nat, request: Request, reply: Reply, diagnosis: string -> bool, now: real)
      returns (saved: bool, decision: Decision, orphans: set<Acceptance>)
      requires Valid() && jobId in jobs && jobs[jobId].accepted == Acceptance(config.scope, jobs[jobId].sessionId)
      modifies this
      ensures config.Valid() && decision.Valid() && decision.accepted == old(jobs[jobId].accepted)
      ensures decision.status == Completed <==>
        && reply.Returned? && reply.raw.Some? && Admits(request, diagnosis, reply.raw.value)
        && (request.source.Some? ==> request.evidence.variant == B)
      ensures decision.status == Completed ==>
        decision == CompletedDecision(decision.accepted, reply.raw.value, request.evidence.quality, request.evidence.variant)
      ensures var (committed, published) :=
          Committed(config, Swept(old(Held()), now), old(jobs[jobId].sessionId), jobId, decision, now);
        saved == published && Held() == committed.(jobs := Cleared(committed.jobs, Some(jobId)))
      ensures Valid()
    {
      hide MemoryInv, ContextValid, Admits, Decision.Valid, Orphans, Swept;
      var job := jobs[jobId];
      decision := DecideReply(reply, request, diagnosis, job.accepted);
      saved, orphans := CommitTerminal(job.sessionId, jobId, decision, now);
      SweptOwner(config, repository, old(Held()), now, jobId);
      ReleaseKeepsInv(config, repository, Swept(old(Held()), now), job.sessionId, jobId, decision, now);
      jobs := Cleared(jobs, Some(jobId));
    }

    /** `cancel`: forgets the session and returns the request whose row must be cancelled. */
    method Cancel(session: string) returns (request: Option<Acceptance>)
      requires Valid()
      modifies this
      ensures Valid() && (Held(), request) == Cancelled(old(Held()), session)
    {
      hide MemoryInv, ContextValid;
      CancelKeepsInv(config, repository, Held(), session);
      request := None;
      if session in states {
        var state := states[session];
        states := states - {session};
        request := state.accepted;
        jobs := Cleared(jobs, state.activeJobId);
      }
    }

    /** `get_recommendation`; its internal-error branch is dead. */
    method GetRecommendation(session: string, now: real) returns (answer: Answer, orphans: set<Acceptance>)
      requires Valid()
      modifies this
      ensures Valid() && Held() == Swept(old(Held()), now) && orphans == Orphans(old(Held()), now)
      ensures answer == AnswerFor(Held(), session) && answer != Missing
      ensures answer == NotStarted <==> session !in states || states[session].status == Collecting
      ensures forall a: Acceptance :: answer == StillPending(a) <==>
                session in states && states[session].status == Pending && states[session].accepted == Some(a)
      ensures forall d: Decision :: answer == Decided(d) <==>
                session in states && states[session].status == Terminal && states[session].decision == Some(d)
    {
      hide MemoryInv, ContextValid, Swept, Orphans, Decision.Valid;
      orphans := CleanupExpired(now);
      AnswersByStatus(config, repository, Held(), session);
      if session !in states || states[session].accepted.None? {
        return NotStarted, orphans;
      }
      if states[session].status == Pending {
        return StillPending(states[session].accepted.value), orphans;
      }
      answer := if states[session].decision.None? then Missing else Decided(states[session].decision.value);
    }
  }

  lemma SameButFlag(ctx: SessionContext, flag: bool)
    ensures SameSession(ctx.(completedV1 := flag), ctx) && SameSession(ctx, ctx.(completedV1 := flag))
  {
  }

  lemma PutIs(m: Memory, session: string, record: Record)
    ensures session in Put(m, session, record).sessions && Put(m, session, record).sessions[session] == record
  {
  }

  lemma PutTwice(m: Memory, session: string, a: Record, b: Record)
    ensures Put(Put(m, session, a), session, b) == Put(m, session, b)
  {
    assert m.sessions[session := a][session := b] == m.sessions[session := b];
  }

  lemma BegunOnce(config: Config, swept: Memory, session: string, record: Record, prepared: Prepared, jobId: nat, now: real)
    ensures Begun(config, Put(swept, session, record), session, record, prepared, jobId, now) ==
      Begun(config, swept, session, record, prepared, jobId, now)
  {
    var after := Begun(config, swept, session, record, prepared, jobId, now).0;
    PutTwice(swept, session, record, after.sessions[session]);
  }

  /** Opening the record first makes no difference to what `Begun` leaves. */
  lemma BegunOnOpened(config: Config, swept: Memory, session: string, record: Record, now: real)
    ensures forall prepared: Prepared, jobId: nat ::
      Begun(config, Put(swept, session, record), session, record, prepared, jobId, now) ==
      Begun(config, swept, session, record, prepared, jobId, now)
  {
    hide Begun, Put;
    forall prepared: Prepared, jobId: nat
      ensures Begun(config, Put(swept, session, record), session, record, prepared, jobId, now) ==
        Begun(config, swept, session, record, prepared, jobId, now)
    {
      BegunOnce(config, swept, session, record, prepared, jobId, now);
    }
  }

  lemma SweptJobsKnown(m: Memory, now: real)
    ensures Swept(m, now).jobs.Keys == m.jobs.Keys
  {
  }

  lemma BufferKeys(ctx: SessionContext, buffer: Buffer)
    requires BufferInv(ctx, buffer)
    ensures forall k :: k in buffer.observations ==> buffer.observations[k].FrameKey() == k
  {
    hide Frame.Valid, Admissible, Indexed, HighestEpoch, BatchTables, OffsetsForward, VideoTimeForward, LastVideoTimes;
  }

  lemma SnapshotReadable(ctx: SessionContext, buffer: Buffer, observations: seq<Frame>)
    requires ContextValid(ctx) && BufferInv(ctx, buffer) && Enumerates(observations, buffer.observations)
    ensures forall o :: o in observations ==> o.Valid()
    ensures ctx.source.Some? ==> ctx.source.value.Valid() && HitsKnown(buffer.sourceHits, ctx.source.value.sources)
  {
    hide BufferInv, Frame.Valid, Admissible, HitsKnown, Enumerates, Aoi.WellFormed, AoiNamesCatalog, UniqueMatching,
      SourceMetadata.Valid, MatchingIds, ProductIds;
    SnapshotHolds(ctx, buffer, observations);
  }

  lemma BegunIs(config: Config, swept: Memory, session: string, record: Record, prepared: Prepared, jobId: nat, now: real,
                after: Memory, r: BeginResult)
    requires after == match prepared
             case Immediate(d) =>
               Put(swept, session, record.(status := Terminal, accepted := Some(Acceptance(config.scope, session)),
                                           buffer := EmptyBuffer, decision := Some(d), expiresAt := now + config.decisionTtl))
             case Refused =>
               Put(swept, session, record.(status := Pending, accepted := Some(Acceptance(config.scope, session)),
                                           buffer := EmptyBuffer, expiresAt := now + config.pendingTtl))
             case Dispatch(request) =>
               Memory(swept.sessions[session := record.(status := Pending, accepted := Some(Acceptance(config.scope, session)),
                                                        buffer := EmptyBuffer, activeJobId := Some(jobId),
                                                        expiresAt := now + config.pendingTtl)],
                      swept.jobs[jobId := Job(session, Acceptance(config.scope, session), Some(request))])
    requires r == match prepared
             case Immediate(_) => DecidedAtOnce(Acceptance(config.scope, session))
             case Refused => Escaped
             case Dispatch(_) => Started(Acceptance(config.scope, session), jobId)
    ensures (after, r) == Begun(config, swept, session, record, prepared, jobId, now)
  {
  }

  /** Releasing a job after its commit attempt leaves the invariant standing: it is no longer active. */
  lemma ReleaseKeepsInv(config: Config, contexts: string -> SessionContext, m: Memory, session: string, jobId: nat,
                        decision: Decision, now: real)
    requires MemoryInv(config, contexts, m) && jobId in m.jobs && m.jobs[jobId].sessionId == session
    requires decision.Valid() && decision.accepted == Acceptance(config.scope, session)
    ensures var after := Committed(config, m, session, jobId, decision, now).0;
      MemoryInv(config, contexts, after.(jobs := Cleared(after.jobs, Some(jobId))))
  {
    hide BufferInv, Decision.Valid;
    CommitKeepsInv(config, contexts, m, session, jobId, decision, now);
    var after := Committed(config, m, session, jobId, decision, now).0;
    forall s | s in after.sessions ensures after.sessions[s].activeJobId != Some(jobId) {
      assert JobInv(config, after, s) && RecordInv(config, contexts(s), s, after.sessions[s]);
    }
  }

  lemma SweptOwner(config: Config, contexts: string -> SessionContext, m: Memory, now: real, jobId: nat)
    requires MemoryInv(config, contexts, m) && jobId in m.jobs
    ensures MemoryInv(config, contexts, Swept(m, now))
    ensures jobId in Swept(m, now).jobs && Swept(m, now).jobs[jobId].sessionId == m.jobs[jobId].sessionId
  {
    hide MemoryInv;
    SweepKeepsInv(config, contexts, m, now);
  }

  lemma CollectingBuffer(config: Config, ctx': SessionContext, ctx: SessionContext, session: string, record: Record)
    requires RecordInv(config, ctx', session, record) && record.status == Collecting && SameSession(ctx, ctx')
    ensures BufferInv(ctx, record.buffer)
    ensures forall k :: k in record.buffer.observations ==> record.buffer.observations[k].Valid()
  {
    hide BufferInv, Frame.Valid;
    FlagIrrelevant(ctx', ctx, record.buffer);
    InvValid(ctx, record.buffer);
  }

  lemma PublishedAs(config: Config, swept: Memory, session: string, record: Record, batch: Batch, now: real,
                    outcome: Result<(Buffer, AckStatus), ErrorCode>, after: Memory, r: Result<AckStatus, ErrorCode>)
    requires after == match outcome
             case Err(_) => Put(swept, session, record)
             case Ok((buffer, _)) =>
               if batch.batchId in record.buffer.fingerprints then Put(swept, session, record)
               else Put(swept, session, record.(buffer := buffer, expiresAt := now + config.collectingTtl))
    requires r == match outcome case Err(code) => Err(code) case Ok((_, ack)) => Ok(ack)
    ensures Publishes(config, swept, session, record, batch, now, outcome, after, r)
  {
  }
}
