/**
 The in-memory half of the recommendation protocol (`v2_store.py`), as relations between the memories
 before and after one lock-held block. The expiry sweep that most calls make first is a block of its own.
 */
module SessionMemory {
  import opened Common
  import opened Observations
  import opened Ingestion
  import opened EvidenceSummary
  import opened SourceEvidence
  import opened Snapshots
  import opened Gate
  import opened Completion
  import opened Grounding
  import opened CompletionFacts
  import Aoi = AoiMetadata

  datatype Status = Collecting | Pending | Terminal

  /** `V2SessionState` as a value */
  datatype Record = Record(buffer: Buffer, status: Status, accepted: Option<Acceptance>, decision: Option<Decision>,
                           activeJobId: Option<nat>, expiresAt: real)

  /** `CompletionJob` as a value; a cleared job has no request. */
  datatype Job = Job(sessionId: string, accepted: Acceptance, request: Option<Request>)

  datatype Memory = Memory(sessions: map<string, Record>, jobs: map<nat, Job>)

  datatype Config = Config(scope: nat, settings: Settings, collectingTtl: real, pendingTtl: real, decisionTtl: real,
                           orphanSeconds: real, retentionSeconds: real)
  {
    /** What the constructor checks. */
    predicate Valid() {
      && collectingTtl > 0.0 && pendingTtl > 0.0 && decisionTtl > 0.0 && orphanSeconds > 0.0 && retentionSeconds > 0.0
      && pendingTtl <= orphanSeconds
    }
  }

  function NewRecord(expiresAt: real): Record {
    Record(EmptyBuffer, Collecting, None, None, None, expiresAt)
  }

  const EmptyMemory := Memory(map[], map[])

  // ----- The expiry sweep -----

  predicate Expired(r: Record, now: real) {
    r.expiresAt <= now
  }

  /** An expired session that was waiting for a decision: its row has to be failed. */
  predicate Orphaned(r: Record, now: real) {
    Expired(r, now) && r.status == Pending && r.accepted.Some?
  }

  function Unexpired(sessions: map<string, Record>, now: real): map<string, Record> {
    map s | s in sessions && !Expired(sessions[s], now) :: sessions[s]
  }

  predicate SweptJob(sessions: map<string, Record>, now: real, job: nat) {
    exists s :: s in sessions && Orphaned(sessions[s], now) && sessions[s].activeJobId == Some(job)
  }

  function SweptJobs(m: Memory, now: real): map<nat, Job> {
    map j | j in m.jobs :: if SweptJob(m.sessions, now, j) then m.jobs[j].(request := None) else m.jobs[j]
  }

  /** `cleanup_expired` */
  function Swept(m: Memory, now: real): Memory {
    Memory(Unexpired(m.sessions, now), SweptJobs(m, now))
  }

  /** The lock-held half of the sweep: expired sessions are forgotten. Their jobs lose their requests later. */
  function Lapsed(m: Memory, now: real): Memory {
    Memory(Unexpired(m.sessions, now), m.jobs)
  }

  function Orphans(m: Memory, now: real): set<Acceptance> {
    set s | s in m.sessions && Orphaned(m.sessions[s], now) :: m.sessions[s].accepted.value
  }

  /** The sweep half way through, after the expired sessions in `done` were forgotten. */
  function PartlySwept(m: Memory, done: set<string>, now: real): Memory {
    Memory(m.sessions - done,
           map j | j in m.jobs :: if j in JobsAmong(m.sessions, done, now) then m.jobs[j].(request := None) else m.jobs[j])
  }

  function OrphansAmong(sessions: map<string, Record>, done: set<string>, now: real): set<Acceptance> {
    set s | s in done && s in sessions && Orphaned(sessions[s], now) :: sessions[s].accepted.value
  }

  function JobsAmong(sessions: map<string, Record>, done: set<string>, now: real): set<nat> {
    set s | s in done && s in sessions && Orphaned(sessions[s], now) && sessions[s].activeJobId.Some? ::
      sessions[s].activeJobId.value
  }

  /** Forgetting one expired session. */
  function Forgotten(m: Memory, s: string, now: real): Memory
    requires s in m.sessions
  {
    Memory(m.sessions - {s}, if Orphaned(m.sessions[s], now) then Cleared(m.jobs, m.sessions[s].activeJobId) else m.jobs)
  }

  lemma JobsAmongStep(sessions: map<string, Record>, done: set<string>, s: string, now: real)
    requires s in sessions
    ensures JobsAmong(sessions, done + {s}, now) ==
      JobsAmong(sessions, done, now)
      + if Orphaned(sessions[s], now) && sessions[s].activeJobId.Some? then {sessions[s].activeJobId.value} else {}
  {
  }

  lemma PartlySweptStep(m: Memory, done: set<string>, s: string, now: real)
    requires s in m.sessions && s !in done
    ensures Forgotten(PartlySwept(m, done, now), s, now) == PartlySwept(m, done + {s}, now)
    ensures OrphansAmong(m.sessions, done + {s}, now) ==
      OrphansAmong(m.sessions, done, now) + if Orphaned(m.sessions[s], now) then {m.sessions[s].accepted.value} else {}
  {
    hide JobsAmong, Orphaned;
    JobsAmongStep(m.sessions, done, s, now);
    assert m.sessions - done - {s} == m.sessions - (done + {s});
  }

  /** One round of the sweep's loop: the session is still there, untouched, and forgetting it is the next step. */
  lemma SweepRound(m: Memory, done: set<string>, s: string, now: real, held: Memory)
    requires held == PartlySwept(m, done, now) && s in m.sessions && s !in done
    ensures s in held.sessions && held.sessions[s] == m.sessions[s]
    ensures Memory(map k | k in held.sessions && k != s :: held.sessions[k],
                   if Orphaned(held.sessions[s], now) then Cleared(held.jobs, held.sessions[s].activeJobId)
                   else held.jobs) == PartlySwept(m, done + {s}, now)
    ensures OrphansAmong(m.sessions, done + {s}, now) ==
      OrphansAmong(m.sessions, done, now) + if Orphaned(m.sessions[s], now) then {m.sessions[s].accepted.value} else {}
  {
    PartlySweptStep(m, done, s, now);
    hide OrphansAmong, JobsAmong;
    assert (map k | k in held.sessions && k != s :: held.sessions[k]) == held.sessions - {s};
  }

  lemma PartlySweptStart(m: Memory, now: real)
    ensures PartlySwept(m, {}, now) == m && OrphansAmong(m.sessions, {}, now) == {}
  {
    assert m.sessions - {} == m.sessions;
  }

  lemma PartlySweptEnd(m: Memory, done: set<string>, now: real)
    requires forall s :: s in done <==> s in m.sessions && Expired(m.sessions[s], now)
    ensures PartlySwept(m, done, now) == Swept(m, now)
    ensures OrphansAmong(m.sessions, done, now) == Orphans(m, now)
  {
    forall j ensures j in JobsAmong(m.sessions, done, now) <==> SweptJob(m.sessions, now, j) {
    }
    hide JobsAmong, SweptJob;
    assert m.sessions - done == Unexpired(m.sessions, now);
  }

  // ----- append_batch -----

  /** The session's record, created on the spot if there is none. */
  function Opened(m: Memory, session: string, now: real, config: Config): Record {
    if session in m.sessions then m.sessions[session] else NewRecord(now + config.collectingTtl)
  }

  function Put(m: Memory, session: string, r: Record): Memory {
    m.(sessions := m.sessions[session := r])
  }

  /** How `append_batch` moves the memory, given the outcome of the lock-held part. */
  ghost predicate Appends(config: Config, ctx: SessionContext, before: Memory, session: string, batch: Batch, now: real,
                          after: Memory, r: Result<AckStatus, ErrorCode>)
    requires batch.Valid()
  {
    if CheckBatch(ctx, session, batch).Some? then
      after == before && r == Err(CheckBatch(ctx, session, batch).value)
    else
      var record := Opened(before, session, now, config);
      if record.status != Collecting then after == Put(before, session, record) && r == Err(SessionCompleted)
      else
        && (forall k :: k in record.buffer.observations ==> record.buffer.observations[k].Valid())
        && exists outcome :: Ingests(ctx, record.buffer, batch, outcome) && Publishes(config, before, session, record,
                                                                                     batch, now, outcome, after, r)
  }

  /** A refused batch leaves the record alone; a repeated batch id does not even extend its life. */
  predicate Publishes(config: Config, before: Memory, session: string, record: Record, batch: Batch, now: real,
                      outcome: Result<(Buffer, AckStatus), ErrorCode>, after: Memory, r: Result<AckStatus, ErrorCode>)
  {
    match outcome
    case Err(code) => after == Put(before, session, record) && r == Err(code)
    case Ok((buffer, ack)) =>
      && r == Ok(ack)
      && after == Put(before, session,
                      if batch.batchId in record.buffer.fingerprints then record
                      else record.(buffer := buffer, expiresAt := now + config.collectingTtl))
  }

  // ----- begin_completion -----

  datatype BeginResult =
    | Refusal(error: ErrorCode)
    | AlreadyBegun(accepted: Acceptance)
    | DecidedAtOnce(accepted: Acceptance)
    | Started(accepted: Acceptance, jobId: nat)
    | Escaped

  /** `begin_completion` on a collecting session, given what was prepared from its snapshot. */
  function Begun(config: Config, before: Memory, session: string, record: Record, prepared: Prepared, jobId: nat, now: real)
    : (Memory, BeginResult)
  {
    var accepted := Acceptance(config.scope, session);
    var pending := Record(EmptyBuffer, Pending, Some(accepted), record.decision, record.activeJobId,
                          now + config.pendingTtl);
    match prepared
    case Immediate(d) =>
      (Put(before, session, pending.(status := Terminal, decision := Some(d), expiresAt := now + config.decisionTtl)),
       DecidedAtOnce(accepted))
    case Refused => (Put(before, session, pending), Escaped)
    case Dispatch(request) =>
      (Put(before, session, pending.(activeJobId := Some(jobId))).(jobs := before.jobs[jobId := Job(session, accepted, Some(request))]),
       Started(accepted, jobId))
  }

  ghost predicate Begins(config: Config, ctx: SessionContext, before: Memory, session: string, modelId: string,
                         jobId: nat, now: real, after: Memory, r: BeginResult)
  {
    if ctx.source.Some? && !ctx.source.value.approved then after == before && r == Refusal(AoiMetadataUnapproved)
    else
      var record := Opened(before, session, now, config);
      if record.status != Collecting then
        && after == Put(before, session, record)
        && r == if record.accepted.Some? then AlreadyBegun(record.accepted.value) else Refusal(RecommendationMissing)
      else if ctx.completedV1 then after == Put(before, session, record) && r == Refusal(SessionCompleted)
      else
        exists observations: seq<Frame> ::
          && Enumerates(observations, record.buffer.observations)
          && (forall o :: o in observations ==> o.Valid())
          && (ctx.source.Some? ==> HitsKnown(record.buffer.sourceHits, ctx.source.value.sources))
          && (after, r) == Begun(config, before, session, record,
                                 Prepare(ctx, observations, record.buffer.sourceHits, config.settings, modelId,
                                         Acceptance(config.scope, session)), jobId, now)
  }

  // ----- Terminal commit, cancel, read -----

  /** `_commit_terminal`: publishes for the still-active job only. */
  function Committed(config: Config, m: Memory, session: string, jobId: nat, decision: Decision, now: real): (Memory, bool) {
    if session !in m.sessions || m.sessions[session].status != Pending
       || m.sessions[session].activeJobId != Some(jobId) then (m, false)
    else
      (Put(m, session, m.sessions[session].(decision := Some(decision), status := Terminal, activeJobId := None,
                                                    buffer := EmptyBuffer, expiresAt := now + config.decisionTtl)),
       true)
  }

  function Cleared(jobs: map<nat, Job>, jobId: Option<nat>): map<nat, Job> {
    if jobId.Some? && jobId.value in jobs then jobs[jobId.value := jobs[jobId.value].(request := None)] else jobs
  }

  /** `cancel`: the session is forgotten at once, and its job loses its request. */
  function Cancelled(m: Memory, session: string): (Memory, Option<Acceptance>) {
    if session !in m.sessions then (m, None)
    else
      var record := m.sessions[session];
      (Memory(m.sessions - {session}, Cleared(m.jobs, record.activeJobId)), record.accepted)
  }

  /** The lock-held half of `cancel`. */
  function Gone(m: Memory, session: string): Memory {
    Memory(m.sessions - {session}, m.jobs)
  }

  datatype Answer = NotStarted | StillPending(accepted: Acceptance) | Decided(decision: Decision) | Missing

  /** What `get_recommendation` answers. */
  function AnswerFor(m: Memory, session: string): Answer {
    if session !in m.sessions || m.sessions[session].accepted.None? then NotStarted
    else if m.sessions[session].status == Pending then StillPending(m.sessions[session].accepted.value)
    else if m.sessions[session].decision.None? then Missing
    else Decided(m.sessions[session].decision.value)
  }

  // ----- The invariant of every reachable memory -----

  /** What a record of each status holds. Only a collecting session holds frame data. */
  ghost predicate RecordInv(config: Config, ctx: SessionContext, session: string, r: Record) {
    match r.status
    case Collecting => r.accepted.None? && r.decision.None? && r.activeJobId.None? && BufferInv(ctx, r.buffer)
    case Pending =>
      r.accepted == Some(Acceptance(config.scope, session)) && r.decision.None? && r.buffer == EmptyBuffer
    case Terminal =>
      && r.accepted == Some(Acceptance(config.scope, session)) && r.activeJobId.None? && r.buffer == EmptyBuffer
      && r.decision.Some? && r.decision.value.Valid() && r.decision.value.accepted == Acceptance(config.scope, session)
  }

  /** An active job is known, unclaimed by any other session, and still holds its request. */
  ghost predicate JobInv(config: Config, m: Memory, session: string)
    requires session in m.sessions
  {
    m.sessions[session].activeJobId.Some? ==>
      var j := m.sessions[session].activeJobId.value;
      j in m.jobs && m.jobs[j].sessionId == session && m.jobs[j].accepted == Acceptance(config.scope, session)
      && m.jobs[j].request.Some?
  }

  ghost predicate MemoryInv(config: Config, contexts: string -> SessionContext, m: Memory) {
    forall s :: s in m.sessions ==> RecordInv(config, contexts(s), s, m.sessions[s]) && JobInv(config, m, s)
  }

  /** Which answer a poll gets, read off the record: one answer per status, and never the internal error. */
  lemma AnswersByStatus(config: Config, contexts: string -> SessionContext, m: Memory, session: string)
    requires MemoryInv(config, contexts, m)
    ensures AnswerFor(m, session) == NotStarted <==> session !in m.sessions || m.sessions[session].status == Collecting
    ensures forall a: Acceptance :: AnswerFor(m, session) == StillPending(a) <==>
              session in m.sessions && m.sessions[session].status == Pending && m.sessions[session].accepted == Some(a)
    ensures forall d: Decision :: AnswerFor(m, session) == Decided(d) <==>
              session in m.sessions && m.sessions[session].status == Terminal && m.sessions[session].decision == Some(d)
    ensures AnswerFor(m, session) != Missing
  {
    hide MemoryInv, JobInv, BufferInv, Decision.Valid;
    if session in m.sessions {
      SessionInv(config, contexts, m, session);
    }
  }

  lemma SweepKeepsRecord(config: Config, contexts: string -> SessionContext, m: Memory, now: real, s: string)
    requires MemoryInv(config, contexts, m) && s in Swept(m, now).sessions
    ensures RecordInv(config, contexts(s), s, Swept(m, now).sessions[s]) && JobInv(config, Swept(m, now), s)
  {
    hide RecordInv;
    assert JobInv(config, m, s);
    forall t | t in m.sessions && t != s ensures m.sessions[t].activeJobId != m.sessions[s].activeJobId
                                                 || m.sessions[s].activeJobId.None? {
      assert JobInv(config, m, t);
    }
  }

  lemma SweepKeepsInv(config: Config, contexts: string -> SessionContext, m: Memory, now: real)
    requires MemoryInv(config, contexts, m)
    ensures MemoryInv(config, contexts, Swept(m, now))
  {
    hide RecordInv, JobInv, Swept;
    forall s | s in Swept(m, now).sessions
      ensures RecordInv(config, contexts(s), s, Swept(m, now).sessions[s]) && JobInv(config, Swept(m, now), s)
    {
      SweepKeepsRecord(config, contexts, m, now, s);
    }
  }

  lemma LapseKeepsInv(config: Config, contexts: string -> SessionContext, m: Memory, now: real)
    requires MemoryInv(config, contexts, m)
    ensures MemoryInv(config, contexts, Lapsed(m, now))
  {
    hide RecordInv;
    forall s | s in Lapsed(m, now).sessions ensures JobInv(config, Lapsed(m, now), s) {
      assert JobInv(config, m, s);
    }
  }

  lemma GoneKeepsInv(config: Config, contexts: string -> SessionContext, m: Memory, session: string)
    requires MemoryInv(config, contexts, m)
    ensures MemoryInv(config, contexts, Gone(m, session))
  {
    hide RecordInv;
    forall s | s in Gone(m, session).sessions ensures JobInv(config, Gone(m, session), s) {
      assert JobInv(config, m, s);
    }
  }

  /**
   What the sweep and `cancel` do after they release the lock: they clear jobs, and only jobs that are no
   longer active in any session.
   */
  lemma SweepClearsInactive(config: Config, contexts: string -> SessionContext, m: Memory, now: real)
    requires MemoryInv(config, contexts, m)
    ensures Swept(m, now).sessions == Lapsed(m, now).sessions && Swept(m, now).jobs.Keys == m.jobs.Keys
    ensures forall j :: j in m.jobs && Swept(m, now).jobs[j] != m.jobs[j] ==>
              Swept(m, now).jobs[j] == m.jobs[j].(request := None)
              && forall s :: s in Lapsed(m, now).sessions ==> m.sessions[s].activeJobId != Some(j)
  {
    hide RecordInv;
    forall j, s | j in m.jobs && Swept(m, now).jobs[j] != m.jobs[j] && s in Lapsed(m, now).sessions
      ensures m.sessions[s].activeJobId != Some(j)
    {
      var t :| t in m.sessions && Orphaned(m.sessions[t], now) && m.sessions[t].activeJobId == Some(j);
      assert JobInv(config, m, t) && JobInv(config, m, s);
    }
  }

  lemma CancelClearsInactive(config: Config, contexts: string -> SessionContext, m: Memory, session: string)
    requires MemoryInv(config, contexts, m)
    ensures Cancelled(m, session).0.sessions == Gone(m, session).sessions
    ensures forall j :: j in m.jobs && Cancelled(m, session).0.jobs[j] != m.jobs[j] ==>
              Cancelled(m, session).0.jobs[j] == m.jobs[j].(request := None)
              && forall s :: s in Gone(m, session).sessions ==> m.sessions[s].activeJobId != Some(j)
  {
    hide RecordInv;
    assert session !in m.sessions ==> m.sessions - {session} == m.sessions;
    forall s | s in m.sessions ensures JobInv(config, m, s) {
    }
  }

  lemma PutKeepsInv(config: Config, contexts: string -> SessionContext, m: Memory, session: string, r: Record)
    requires MemoryInv(config, contexts, m)
    requires RecordInv(config, contexts(session), session, r) && JobInv(config, Put(m, session, r), session)
    ensures MemoryInv(config, contexts, Put(m, session, r))
  {
    hide RecordInv;
  }

  lemma OpenedInv(config: Config, contexts: string -> SessionContext, m: Memory, session: string, now: real)
    requires MemoryInv(config, contexts, m)
    ensures var r := Opened(m, session, now, config);
      RecordInv(config, contexts(session), session, r) && JobInv(config, Put(m, session, r), session)
      && MemoryInv(config, contexts, Put(m, session, r))
  {
    EmptyInv(contexts(session));
    var r := Opened(m, session, now, config);
    assert RecordInv(config, contexts(session), session, r);
    assert JobInv(config, Put(m, session, r), session);
    hide RecordInv, BufferInv;
    PutKeepsInv(config, contexts, m, session, r);
  }

  /** The context of a session is fixed for its life, but for whether a v1 run has completed it. */
  ghost predicate SameSession(a: SessionContext, b: SessionContext) {
    a.(completedV1 := false) == b.(completedV1 := false)
  }

  lemma FlagIrrelevant(a: SessionContext, b: SessionContext, buffer: Buffer)
    requires SameSession(a, b) && BufferInv(a, buffer)
    ensures BufferInv(b, buffer)
  {
    hide Frame.Valid, OffsetsForward, VideoTimeForward, LastVideoTimes, BatchTables, Indexed, HighestEpoch;
    var c := a.(completedV1 := b.completedV1);
    assert c == b;
    assert forall o: Frame :: Admissible(a, o) <==> Admissible(b, o);
  }

  /** Every answer of `append_batch` keeps the invariant, refused batches included. */
  lemma AppendKeepsInv(config: Config, contexts: string -> SessionContext, ctx: SessionContext, before: Memory,
                       session: string, batch: Batch, now: real, after: Memory, r: Result<AckStatus, ErrorCode>)
    requires MemoryInv(config, contexts, before) && SameSession(ctx, contexts(session)) && batch.Valid()
    requires Appends(config, ctx, before, session, batch, now, after, r)
    ensures MemoryInv(config, contexts, after)
  {
    hide MemoryInv, Ingests, CheckBatch, BufferInv, Frame.Valid, JobInv, Admissible, SameSession;
    if CheckBatch(ctx, session, batch).None? {
      OpenedInv(config, contexts, before, session, now);
      var record := Opened(before, session, now, config);
      if record.status == Collecting {
        var outcome :| Ingests(ctx, record.buffer, batch, outcome)
                       && Publishes(config, before, session, record, batch, now, outcome, after, r);
        if outcome.Ok? && batch.batchId !in record.buffer.fingerprints {
          CheckedBatch(ctx, session, batch);
          IngestedInv(ctx, contexts(session), record.buffer, batch, outcome);
          var next := record.(buffer := outcome.value.0, expiresAt := now + config.collectingTtl);
          SameJob(config, before, session, record, next);
          PutKeepsInv(config, contexts, before, session, next);
        }
      }
    }
  }

  lemma SameJob(config: Config, m: Memory, session: string, a: Record, b: Record)
    requires JobInv(config, Put(m, session, a), session) && a.activeJobId == b.activeJobId
    ensures JobInv(config, Put(m, session, b), session)
  {
  }

  lemma CheckedBatch(ctx: SessionContext, session: string, batch: Batch)
    requires CheckBatch(ctx, session, batch).None?
    ensures forall o :: o in batch.observations ==> Admissible(ctx, o)
  {
    hide Admissible;
  }

  lemma IngestedInv(ctx: SessionContext, ctx': SessionContext, buffer: Buffer, batch: Batch,
                    outcome: Result<(Buffer, AckStatus), ErrorCode>)
    requires BufferInv(ctx', buffer) && SameSession(ctx, ctx') && batch.Valid()
    requires forall o :: o in batch.observations ==> Admissible(ctx, o)
    requires forall k :: k in buffer.observations ==> buffer.observations[k].Valid()
    requires Ingests(ctx, buffer, batch, outcome) && outcome.Ok?
    ensures BufferInv(ctx', outcome.value.0)
  {
    hide BufferInv, Ingests, Frame.Valid, Admissible;
    FlagIrrelevant(ctx', ctx, buffer);
    IngestPreservesInv(ctx, buffer, batch, outcome);
    FlagIrrelevant(ctx, ctx', outcome.value.0);
  }

  /** The frames stored for a session: none if it has no record. */
  function Stored(m: Memory, session: string): map<Key, Frame> {
    if session in m.sessions then m.sessions[session].buffer.observations else map[]
  }

  /**
   A batch is answered "accepted" exactly when it changed the session's stored frames, and never takes any away.
   An answered session is still collecting.
   */
  lemma AcceptedBatchChanged(config: Config, contexts: string -> SessionContext, ctx: SessionContext, before: Memory,
                             session: string, batch: Batch, now: real, after: Memory, r: Result<AckStatus, ErrorCode>)
    requires MemoryInv(config, contexts, before) && SameSession(ctx, contexts(session)) && batch.Valid()
    requires Appends(config, ctx, before, session, batch, now, after, r) && r.Ok?
    ensures session in after.sessions && after.sessions[session].status == Collecting
    ensures r.value == Accepted <==> Stored(after, session) != Stored(before, session)
    ensures Grows(Stored(before, session), Stored(after, session))
  {
    hide MemoryInv, Ingests, CheckBatch, BufferInv, Frame.Valid, JobInv, Admissible, SameSession, Grows;
    OpenedInv(config, contexts, before, session, now);
    var record := Opened(before, session, now, config);
    assert record.buffer.observations == Stored(before, session);
    var outcome :| Ingests(ctx, record.buffer, batch, outcome)
                   && Publishes(config, before, session, record, batch, now, outcome, after, r);
    CheckedBatch(ctx, session, batch);
    FlagBack(ctx, contexts(session), record.buffer);
    AcceptedMeansChanged(ctx, record.buffer, batch, outcome);
    if batch.batchId in record.buffer.fingerprints {
      RepeatedBatch(ctx, record.buffer, batch, outcome);
    }
  }

  lemma RepeatedBatch(ctx: SessionContext, buffer: Buffer, batch: Batch, outcome: Result<(Buffer, AckStatus), ErrorCode>)
    requires (forall k :: k in buffer.observations ==> buffer.observations[k].Valid()) && batch.Valid()
    requires Ingests(ctx, buffer, batch, outcome) && outcome.Ok? && batch.batchId in buffer.fingerprints
    ensures outcome.value.0 == buffer
  {
    hide AdmitAll, Frame.Valid;
  }

  /** A refused batch changes nothing: at most the session's record is opened. */
  lemma RefusedBatchChangesNothing(config: Config, ctx: SessionContext, before: Memory, session: string, batch: Batch,
                                   now: real, after: Memory, r: Result<AckStatus, ErrorCode>)
    requires batch.Valid() && Appends(config, ctx, before, session, batch, now, after, r) && r.Err?
    ensures after == before || after == Put(before, session, Opened(before, session, now, config))
    ensures session in before.sessions ==> after == before
  {
    hide Ingests, CheckBatch, Frame.Valid;
  }

  ghost predicate PreparedWell(accepted: Acceptance, p: Prepared) {
    && (p.Immediate? ==> p.decision.Valid() && p.decision.accepted == accepted)
    && (p.Dispatch? ==> p.request.Valid())
  }

  /** The record that `begin_completion` leaves behind. */
  lemma BegunRecord(config: Config, ctx: SessionContext, before: Memory, session: string, record: Record,
                    prepared: Prepared, jobId: nat, now: real)
    requires RecordInv(config, ctx, session, record) && record.status == Collecting
    requires PreparedWell(Acceptance(config.scope, session), prepared)
    ensures var after := Begun(config, before, session, record, prepared, jobId, now).0;
      && after.sessions.Keys == before.sessions.Keys + {session}
      && (forall s :: s in before.sessions && s != session ==> after.sessions[s] == before.sessions[s])
      && RecordInv(config, ctx, session, after.sessions[session]) && JobInv(config, after, session)
      && (forall j :: j in before.jobs && j != jobId ==> j in after.jobs && after.jobs[j] == before.jobs[j])
  {
    hide BufferInv, Request.Valid, Decision.Valid;
  }

  lemma BegunKeepsInv(config: Config, contexts: string -> SessionContext, before: Memory, session: string, record: Record,
                      prepared: Prepared, jobId: nat, now: real)
    requires MemoryInv(config, contexts, before) && RecordInv(config, contexts(session), session, record)
    requires record.status == Collecting && jobId !in before.jobs
    requires PreparedWell(Acceptance(config.scope, session), prepared)
    ensures MemoryInv(config, contexts, Begun(config, before, session, record, prepared, jobId, now).0)
  {
    hide RecordInv, Begun, PreparedWell;
    var after := Begun(config, before, session, record, prepared, jobId, now).0;
    StillCollecting(config, contexts, before, session, record);
    BegunRecord(config, contexts(session), before, session, record, prepared, jobId, now);
    forall s | s in after.sessions && s != session
      ensures RecordInv(config, contexts(s), s, after.sessions[s]) && JobInv(config, after, s)
    {
      assert JobInv(config, before, s);
    }
  }

  lemma StillCollecting(config: Config, contexts: string -> SessionContext, before: Memory, session: string, record: Record)
    requires MemoryInv(config, contexts, before)
    ensures forall s :: s in before.sessions ==> RecordInv(config, contexts(s), s, before.sessions[s])
  {
    hide RecordInv;
  }

  lemma DemoAccepted(ctx: SessionContext, settings: Settings, modelId: string, e: EvidenceV2, accepted: Acceptance)
    ensures DemoDecision(ctx, settings, modelId, e, accepted).Some? ==>
      DemoDecision(ctx, settings, modelId, e, accepted).value.accepted == accepted
  {
  }

  lemma FinishAccepted(ctx: SessionContext, settings: Settings, modelId: string, accepted: Acceptance, summarized: Snapshot,
                       visual: Option<VisualEvidence>)
    ensures var p := Finish(ctx, settings, modelId, accepted, summarized, visual);
      p.Immediate? ==> p.decision.accepted == accepted
  {
    hide Ready, SourceQuality, DemoDecision;
    var e := if ctx.source.None? then summarized.evidence
             else summarized.evidence.(quality := SourceQuality(summarized.evidence.quality, visual));
    DemoAccepted(ctx, settings, modelId, e, accepted);
  }

  lemma PrepareWell(ctx: SessionContext, b: Buffer, observations: seq<Frame>, settings: Settings, modelId: string,
                    accepted: Acceptance)
    requires ContextValid(ctx) && BufferInv(ctx, b) && Enumerates(observations, b.observations)
    requires forall o :: o in observations ==> o.Valid()
    requires ctx.source.Some? ==> HitsKnown(b.sourceHits, ctx.source.value.sources)
    ensures PreparedWell(accepted, Prepare(ctx, observations, b.sourceHits, settings, modelId, accepted))
  {
    hide ContextValid, BufferInv, Enumerates, Frame.Valid, HitsKnown, Summarized, Built, Finish, Snapshotted, Decision.Valid,
      Request.Valid;
    SnapshotHolds(ctx, b, observations);
    PreparedValid(ctx, b, observations, settings, modelId, accepted);
    if observations != [] {
      var summarized := Summarized(observations, MappingMetadata(ctx), CatalogOrder(ctx.products), settings.inputVariant);
      var visual := VisualOf(ctx, observations, b.sourceHits);
      if summarized.Ok? && visual.Ok? {
        FinishAccepted(ctx, settings, modelId, accepted, summarized.value, visual.value);
      }
    }
  }

  lemma ContextFlag(a: SessionContext, b: SessionContext)
    requires SameSession(a, b) && ContextValid(a)
    ensures ContextValid(b)
  {
    hide Aoi.WellFormed, AoiNamesCatalog, SourceBound, UniqueMatching, ProductIds, MatchingIds;
    assert a.(completedV1 := b.completedV1) == b;
  }

  /** `begin_completion` keeps the invariant, even when it escapes with an exception. */
  lemma BeginKeepsInv(config: Config, contexts: string -> SessionContext, ctx: SessionContext, before: Memory,
                      session: string, modelId: string, jobId: nat, now: real, after: Memory, r: BeginResult)
    requires MemoryInv(config, contexts, before) && SameSession(ctx, contexts(session)) && ContextValid(ctx)
    requires jobId !in before.jobs
    requires Begins(config, ctx, before, session, modelId, jobId, now, after, r)
    ensures MemoryInv(config, contexts, after)
  {
    hide MemoryInv, BufferInv, Frame.Valid, JobInv, SameSession, ContextValid, Prepare, HitsKnown, PreparedWell, Begun,
      Unexpired, Enumerates, SweptJob, Put;
    if ctx.source.None? || ctx.source.value.approved {
      OpenedInv(config, contexts, before, session, now);
      var record := Opened(before, session, now, config);
      if record.status == Collecting && !ctx.completedV1 {
        var observations: seq<Frame> :|
          Enumerates(observations, record.buffer.observations) && (forall o :: o in observations ==> o.Valid())
          && (ctx.source.Some? ==> HitsKnown(record.buffer.sourceHits, ctx.source.value.sources))
          && (after, r) == Begun(config, before, session, record,
                                 Prepare(ctx, observations, record.buffer.sourceHits, config.settings, modelId,
                                         Acceptance(config.scope, session)), jobId, now);
        FlagBack(ctx, contexts(session), record.buffer);
        PrepareWell(ctx, record.buffer, observations, config.settings, modelId, Acceptance(config.scope, session));
        BegunKeepsInv(config, contexts, before, session, record,
                      Prepare(ctx, observations, record.buffer.sourceHits, config.settings, modelId,
                              Acceptance(config.scope, session)), jobId, now);
      }
    }
  }

  /**
   Completion is idempotent while the session is remembered: whatever it answers with is the one acceptance
   of that session, and its internal error is never raised.
   */
  lemma CompletionAnswersOneAcceptance(config: Config, contexts: string -> SessionContext, ctx: SessionContext,
                                       before: Memory, session: string, modelId: string, jobId: nat, now: real,
                                       after: Memory, r: BeginResult)
    requires MemoryInv(config, contexts, before) && Begins(config, ctx, before, session, modelId, jobId, now, after, r)
    ensures r != Refusal(RecommendationMissing)
    ensures r.DecidedAtOnce? || r.Started? || r.AlreadyBegun? ==> r.accepted == Acceptance(config.scope, session)
  {
    hide MemoryInv, BufferInv, Frame.Valid, JobInv, Prepare, HitsKnown, Unexpired, Enumerates, SweptJob, Put;
    if ctx.source.None? || ctx.source.value.approved {
      OpenedInv(config, contexts, before, session, now);
    }
  }

  lemma FlagBack(ctx: SessionContext, ctx': SessionContext, buffer: Buffer)
    requires SameSession(ctx, ctx') && BufferInv(ctx', buffer)
    ensures BufferInv(ctx, buffer)
  {
    hide BufferInv;
    FlagIrrelevant(ctx', ctx, buffer);
  }

  lemma CommitKeepsInv(config: Config, contexts: string -> SessionContext, m: Memory, session: string, jobId: nat,
                       decision: Decision, now: real)
    requires MemoryInv(config, contexts, m)
    requires decision.Valid() && decision.accepted == Acceptance(config.scope, session)
    ensures MemoryInv(config, contexts, Committed(config, m, session, jobId, decision, now).0)
  {
    hide MemoryInv, Decision.Valid, BufferInv;
    var (after, saved) := Committed(config, m, session, jobId, decision, now);
    if saved {
      SessionInv(config, contexts, m, session);
      PutKeepsInv(config, contexts, m, session, after.sessions[session]);
    }
  }

  lemma SessionInv(config: Config, contexts: string -> SessionContext, m: Memory, s: string)
    requires MemoryInv(config, contexts, m) && s in m.sessions
    ensures RecordInv(config, contexts(s), s, m.sessions[s]) && JobInv(config, m, s)
  {
  }

  lemma CancelKeepsInv(config: Config, contexts: string -> SessionContext, m: Memory, session: string)
    requires MemoryInv(config, contexts, m)
    ensures MemoryInv(config, contexts, Cancelled(m, session).0)
  {
    hide RecordInv;
    if session in m.sessions {
      var after := Cancelled(m, session).0;
      forall s | s in after.sessions ensures JobInv(config, after, s) {
        assert JobInv(config, m, s) && JobInv(config, m, session);
      }
    }
  }
}
