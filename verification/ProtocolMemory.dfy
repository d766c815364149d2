/**
 The memory side of the protocol's invariant: every pending session is driven by a call or a task, and
 keeps the deadline it was given; jobs retire once and for all.
 */
module ProtocolMemory {
  import opened Common
  import opened Ingestion
  import opened Observations
  import opened Snapshots
  import opened SourceEvidence
  import opened Gate
  import opened Completion
  import opened SessionMemory
  import opened Protocol

  // ----- Steps that start no job -----

  /** Jobs keep their identity; at most they lose their request. */
  ghost predicate JobsKept(a: map<nat, Job>, b: map<nat, Job>) {
    && a.Keys == b.Keys
    && (forall j :: j in a ==> b[j] == a[j] || b[j] == a[j].(request := None))
  }

  /** No session becomes active, and none becomes pending. */
  ghost predicate Quiet(a: Memory, b: Memory) {
    && JobsKept(a.jobs, b.jobs)
    && (forall s :: s in b.sessions && b.sessions[s].status == Pending ==> s in a.sessions && b.sessions[s] == a.sessions[s])
    && (forall s :: s in b.sessions && b.sessions[s].activeJobId.Some? ==> s in a.sessions && b.sessions[s] == a.sessions[s])
  }

  lemma QuietTransitive(a: Memory, b: Memory, c: Memory)
    requires Quiet(a, b) && Quiet(b, c)
    ensures Quiet(a, c)
  {
  }

  lemma LapseQuiet(m: Memory, now: real)
    ensures Quiet(m, Lapsed(m, now))
  {
    hide Expired;
  }

  lemma PutQuiet(m: Memory, session: string, r: Record)
    requires r.status != Pending && r.activeJobId.None?
    ensures Quiet(m, Put(m, session, r))
  {
  }

  lemma OpenQuiet(m: Memory, session: string, now: real, config: Config)
    ensures Quiet(m, Put(m, session, Opened(m, session, now, config)))
  {
  }

  lemma AppendQuiet(config: Config, contexts: string -> SessionContext, ctx: SessionContext, before: Memory, session: string,
                    batch: Batch, now: real, after: Memory, r: Result<AckStatus, ErrorCode>)
    requires MemoryInv(config, contexts, before) && batch.Valid()
    requires Appends(config, ctx, before, session, batch, now, after, r)
    ensures Quiet(before, after)
  {
    hide MemoryInv, Ingests, CheckBatch, Quiet, Opened, BufferInv;
    SameQuiet(before);
    if CheckBatch(ctx, session, batch).None? {
      var record := Opened(before, session, now, config);
      OpenQuiet(before, session, now, config);
      OpenedInv(config, contexts, before, session, now);
      if record.status == Collecting {
        var outcome :| Ingests(ctx, record.buffer, batch, outcome)
                       && Publishes(config, before, session, record, batch, now, outcome, after, r);
        if outcome.Ok? && batch.batchId !in record.buffer.fingerprints {
          PutQuiet(before, session, record.(buffer := outcome.value.0, expiresAt := now + config.collectingTtl));
        }
      }
    }
  }

  lemma SameQuiet(m: Memory)
    ensures Quiet(m, m)
  {
  }

  lemma CommitQuiet(config: Config, m: Memory, session: string, jobId: nat, d: Decision, now: real)
    ensures Quiet(m, SessionMemory.Committed(config, m, session, jobId, d, now).0)
  {
    hide Quiet;
    SameQuiet(m);
    var (after, saved) := SessionMemory.Committed(config, m, session, jobId, d, now);
    if saved {
      PutQuiet(m, session, after.sessions[session]);
    }
  }

  lemma CancelQuiet(m: Memory, session: string)
    ensures Quiet(m, Gone(m, session))
  {
  }

  lemma ReleaseQuiet(m: Memory, jobId: nat)
    ensures Quiet(m, m.(jobs := Cleared(m.jobs, Some(jobId))))
  {
  }

  // ----- Activity -----

  lemma QuietInactive(a: Memory, b: Memory, jobId: nat)
    requires Quiet(a, b) && !Active(a, jobId)
    ensures !Active(b, jobId)
  {
  }

  /** A job that was committed, or could not be, is active in no session. */
  lemma CommitRetires(config: Config, contexts: string -> SessionContext, m: Memory, jobId: nat, d: Decision, now: real)
    requires MemoryInv(config, contexts, m) && jobId in m.jobs
    ensures !Active(SessionMemory.Committed(config, m, m.jobs[jobId].sessionId, jobId, d, now).0, jobId)
  {
    hide BufferInv;
    var after := SessionMemory.Committed(config, m, m.jobs[jobId].sessionId, jobId, d, now).0;
    forall s | s in after.sessions ensures after.sessions[s].activeJobId != Some(jobId) {
      if s in m.sessions {
        assert JobInv(config, m, s) && RecordInv(config, contexts(s), s, m.sessions[s]);
      }
    }
  }

  lemma ActiveHoldsRequest(config: Config, contexts: string -> SessionContext, m: Memory, jobId: nat)
    requires MemoryInv(config, contexts, m) && Active(m, jobId)
    ensures jobId in m.jobs && m.jobs[jobId].request.Some?
  {
    hide RecordInv;
    var s :| s in m.sessions && m.sessions[s].activeJobId == Some(jobId);
    assert JobInv(config, m, s);
  }

  lemma ReleaseInactive(config: Config, contexts: string -> SessionContext, m: Memory, jobId: nat)
    requires MemoryInv(config, contexts, m) && !Active(m, jobId)
    ensures MemoryInv(config, contexts, m.(jobs := Cleared(m.jobs, Some(jobId))))
  {
    hide RecordInv;
    var after := m.(jobs := Cleared(m.jobs, Some(jobId)));
    forall s | s in after.sessions ensures JobInv(config, after, s) {
      assert JobInv(config, m, s);
    }
  }

  // ----- The driving invariant -----

  /**
   Every active job has a call or a task that will settle it, and its session keeps the deadline given
   when it began.
   */
  ghost predicate Driven(config: Config, clock: real, memory: Memory, calls: map<nat, Call>, tasks: map<nat, Task>,
                         begun: map<nat, real>)
  {
    && (forall j :: j in calls ==> j !in tasks && j in memory.jobs)
    && (forall j :: j in tasks ==> j in memory.jobs)
    && (forall j :: j in memory.jobs ==>
      j in begun && memory.jobs[j].accepted == Acceptance(config.scope, memory.jobs[j].sessionId))
    && (forall j :: j in begun ==> begun[j] <= clock)
    && (forall s :: s in memory.sessions ==> SessionDriven(config, memory.sessions[s], calls, tasks, begun))
  }

  ghost predicate SessionDriven(config: Config, r: Record, calls: map<nat, Call>, tasks: map<nat, Task>,
                                begun: map<nat, real>)
  {
    && (r.activeJobId.Some? ==>
      && (r.activeJobId.value in calls || r.activeJobId.value in tasks)
      && r.activeJobId.value in begun && r.expiresAt == begun[r.activeJobId.value] + config.pendingTtl)
  }

  lemma QuietDriven(config: Config, clock: real, a: Memory, b: Memory, calls: map<nat, Call>, tasks: map<nat, Task>,
                    begun: map<nat, real>)
    requires Driven(config, clock, a, calls, tasks, begun) && Quiet(a, b)
    ensures Driven(config, clock, b, calls, tasks, begun)
  {
    forall s | s in b.sessions ensures SessionDriven(config, b.sessions[s], calls, tasks, begun) {
      if s in a.sessions {
        assert SessionDriven(config, a.sessions[s], calls, tasks, begun);
      }
    }
  }

  /** Calls and tasks may change hands, as long as no active job is dropped. */
  lemma HandOver(config: Config, clock: real, m: Memory, calls: map<nat, Call>, tasks: map<nat, Task>,
                 calls': map<nat, Call>, tasks': map<nat, Task>, begun: map<nat, real>)
    requires Driven(config, clock, m, calls, tasks, begun)
    requires forall j :: j in calls' ==> j !in tasks' && (j in calls || j in tasks)
    requires forall j :: j in tasks' ==> j in calls || j in tasks
    requires forall j :: (j in calls || j in tasks) && Active(m, j) ==> j in calls' || j in tasks'
    ensures Driven(config, clock, m, calls', tasks', begun)
  {
    forall s | s in m.sessions ensures SessionDriven(config, m.sessions[s], calls', tasks', begun) {
      assert SessionDriven(config, m.sessions[s], calls, tasks, begun);
      if m.sessions[s].activeJobId.Some? {
        assert Active(m, m.sessions[s].activeJobId.value);
      }
    }
  }

  // ----- begin_completion -----

  /** All but one session and one job. */
  function Besides(m: Memory, session: string, jobId: nat): Memory {
    Memory(map s | s in m.sessions && s != session :: m.sessions[s], map j | j in m.jobs && j != jobId :: m.jobs[j])
  }

  ghost predicate BeginOutcome(config: Config, before: Memory, session: string, jobId: nat, now: real, after: Memory,
                               r: BeginResult)
  {
    match r
    case Started(_, j) =>
      && j == jobId && Quiet(before, Besides(after, session, jobId))
      && session in after.sessions && after.sessions[session].status == Pending
      && after.sessions[session].activeJobId == Some(jobId) && after.sessions[session].expiresAt == now + config.pendingTtl
      && jobId in after.jobs && after.jobs[jobId].accepted == Acceptance(config.scope, session)
      && after.jobs[jobId].sessionId == session
    case Escaped =>
      && Quiet(before, Besides(after, session, jobId)) && jobId !in after.jobs
      && session in after.sessions && after.sessions[session].activeJobId.None?
    case _ => Quiet(before, after)
  }

  lemma BesidesQuiet(before: Memory, swept: Memory, session: string, after: Memory, jobId: nat)
    requires Quiet(before, swept) && jobId !in before.jobs
    requires forall s :: s in after.sessions && s != session ==> s in swept.sessions && after.sessions[s] == swept.sessions[s]
    requires forall j :: j in after.jobs && j != jobId ==> j in swept.jobs && after.jobs[j] == swept.jobs[j]
    requires forall j :: j in swept.jobs ==> j in after.jobs
    ensures Quiet(before, Besides(after, session, jobId))
  {
    var m := Besides(after, session, jobId);
    assert m.jobs.Keys == swept.jobs.Keys;
  }

  /** What `Begun` touches: one session and, when it starts one, one job. */
  lemma BegunTouches(config: Config, swept: Memory, session: string, record: Record, prepared: Prepared, jobId: nat, now: real)
    ensures var after := Begun(config, swept, session, record, prepared, jobId, now).0;
      && (forall s :: s in after.sessions && s != session ==> s in swept.sessions && after.sessions[s] == swept.sessions[s])
      && (forall j :: j in after.jobs && j != jobId ==> j in swept.jobs && after.jobs[j] == swept.jobs[j])
      && (forall j :: j in swept.jobs ==> j in after.jobs)
      && session in after.sessions
  {
  }

  lemma BegunOutcome(config: Config, ctx: SessionContext, before: Memory, swept: Memory, session: string, record: Record,
                     prepared: Prepared, jobId: nat, now: real)
    requires Quiet(before, swept) && jobId !in before.jobs
    requires record.status == Collecting && RecordInv(config, ctx, session, record)
    ensures var (after, r) := Begun(config, swept, session, record, prepared, jobId, now);
      BeginOutcome(config, before, session, jobId, now, after, r)
  {
    var (after, r) := Begun(config, swept, session, record, prepared, jobId, now);
    hide Quiet, Besides, BufferInv;
    BegunTouches(config, swept, session, record, prepared, jobId, now);
    BesidesQuiet(before, swept, session, after, jobId);
    QuietKeys(before, swept);
    PutQuietBefore(before, swept, session, after.sessions[session]);
  }

  lemma QuietKeys(before: Memory, swept: Memory)
    requires Quiet(before, swept)
    ensures before.jobs.Keys == swept.jobs.Keys
  {
  }

  lemma PutQuietBefore(before: Memory, swept: Memory, session: string, r: Record)
    requires Quiet(before, swept)
    ensures r.status != Pending && r.activeJobId.None? ==> Quiet(before, Put(swept, session, r))
  {
  }

  lemma BeginShape(config: Config, contexts: string -> SessionContext, ctx: SessionContext, before: Memory, session: string,
                   modelId: string, jobId: nat, now: real, after: Memory, r: BeginResult)
    requires MemoryInv(config, contexts, before) && jobId !in before.jobs
    requires Begins(config, ctx, before, session, modelId, jobId, now, after, r)
    ensures BeginOutcome(config, before, session, jobId, now, after, r)
  {
    hide MemoryInv, Opened, BufferInv, Quiet, Prepare, Begun, HitsKnown, Enumerates, RecordInv, Besides, Put,
      Frame.Valid;
    SameQuiet(before);
    if ctx.source.None? || ctx.source.value.approved {
      var record := Opened(before, session, now, config);
      OpenQuiet(before, session, now, config);
      OpenedInv(config, contexts, before, session, now);
      if record.status == Collecting && !ctx.completedV1 {
        var observations: seq<Frame> :|
          Enumerates(observations, record.buffer.observations) && (forall o :: o in observations ==> o.Valid())
          && (ctx.source.Some? ==> HitsKnown(record.buffer.sourceHits, ctx.source.value.sources))
          && (after, r) == Begun(config, before, session, record,
                                 Prepare(ctx, observations, record.buffer.sourceHits, config.settings, modelId,
                                         Acceptance(config.scope, session)), jobId, now);
        BegunOutcome(config, contexts(session), before, before, session, record,
                     Prepare(ctx, observations, record.buffer.sourceHits, config.settings, modelId,
                             Acceptance(config.scope, session)), jobId, now);
      }
    }
  }

  /** Starting a job gives it a call and a deadline; escaping leaves it without. */
  lemma BeginDriven(config: Config, clock: real, before: Memory, session: string, jobId: nat, after: Memory,
                    r: BeginResult, calls: map<nat, Call>, tasks: map<nat, Task>, begun: map<nat, real>)
    requires Driven(config, clock, before, calls, tasks, begun) && jobId !in begun
    requires BeginOutcome(config, before, session, jobId, clock, after, r)
    ensures match r
            case Started(_, _) => Driven(config, clock, after, calls[jobId := AtSave], tasks, begun[jobId := clock])
            case Escaped => Driven(config, clock, after, calls, tasks, begun)
            case _ => Driven(config, clock, after, calls, tasks, begun)
  {
    match r {
      case Started(_, _) =>
        QuietDriven(config, clock, before, Besides(after, session, jobId), calls, tasks, begun);
        StartedDriven(config, clock, session, jobId, after, calls, tasks, begun);
      case Escaped =>
        QuietDriven(config, clock, before, Besides(after, session, jobId), calls, tasks, begun);
        EscapedDriven(config, clock, session, jobId, after, calls, tasks, begun);
      case _ =>
        QuietDriven(config, clock, before, after, calls, tasks, begun);
    }
  }

  lemma StartedDriven(config: Config, clock: real, session: string, jobId: nat, after: Memory, calls: map<nat, Call>,
                      tasks: map<nat, Task>, begun: map<nat, real>)
    requires Driven(config, clock, Besides(after, session, jobId), calls, tasks, begun) && jobId !in begun
    requires session in after.sessions && after.sessions[session].activeJobId == Some(jobId)
    requires after.sessions[session].expiresAt == clock + config.pendingTtl
    requires jobId in after.jobs && after.jobs[jobId].accepted == Acceptance(config.scope, session)
    requires after.jobs[jobId].sessionId == session
    ensures Driven(config, clock, after, calls[jobId := AtSave], tasks, begun[jobId := clock])
  {
    var m := Besides(after, session, jobId);
    forall s | s in after.sessions
      ensures SessionDriven(config, after.sessions[s], calls[jobId := AtSave], tasks, begun[jobId := clock])
    {
      if s != session {
        assert SessionDriven(config, m.sessions[s], calls, tasks, begun);
      }
    }
    forall j | j in after.jobs
      ensures j in begun[jobId := clock] && after.jobs[j].accepted == Acceptance(config.scope, after.jobs[j].sessionId)
    {
      if j != jobId {
        assert j in m.jobs;
      }
    }
  }

  lemma EscapedDriven(config: Config, clock: real, session: string, jobId: nat, after: Memory, calls: map<nat, Call>,
                      tasks: map<nat, Task>, begun: map<nat, real>)
    requires Driven(config, clock, Besides(after, session, jobId), calls, tasks, begun) && jobId !in after.jobs
    requires session in after.sessions && after.sessions[session].activeJobId.None?
    ensures Driven(config, clock, after, calls, tasks, begun)
  {
    var m := Besides(after, session, jobId);
    forall s | s in after.sessions
      ensures SessionDriven(config, after.sessions[s], calls, tasks, begun)
    {
      if s != session {
        assert SessionDriven(config, m.sessions[s], calls, tasks, begun);
      }
    }
    forall j | j in after.jobs
      ensures j in begun && after.jobs[j].accepted == Acceptance(config.scope, after.jobs[j].sessionId)
    {
      assert j in m.jobs;
    }
  }
}
