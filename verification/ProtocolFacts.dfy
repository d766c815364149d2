/**
 Safety of the whole protocol over every run: one invariant, kept by every step, and what it means for
 the model, the published decisions and the durable rows.
 */
module ProtocolFacts {
  import opened Common
  import opened Ingestion
  import opened Gate
  import opened Completion
  import opened SessionMemory
  import opened JobRows
  import opened Protocol
  import opened ProtocolMemory
  import opened ProtocolRows

  // ----- Claims lead to dispatches -----

  /** A call past its claim, and every task, holds a claim that is recorded as its own. */
  ghost predicate ClaimsHeld(jobs: map<nat, Job>, calls: map<nat, Call>, tasks: map<nat, Task>,
                             claims: map<(Acceptance, nat), nat>)
  {
    && (forall j :: j in calls && calls[j].AtSubmit? ==> j in jobs && Holds(claims, jobs[j].accepted, calls[j].generation, j))
    && (forall j :: j in tasks ==> j in jobs && Holds(claims, jobs[j].accepted, tasks[j].generation, j))
  }

  predicate Holds(claims: map<(Acceptance, nat), nat>, id: Acceptance, generation: nat, j: nat) {
    (id, generation) in claims && claims[(id, generation)] == j
  }

  /** Each dispatch is backed by its job's claim, and a job is dispatched once. */
  ghost predicate DispatchesBacked(modelCalls: seq<ModelCall>, calls: map<nat, Call>, tasks: map<nat, Task>,
                                   claims: map<(Acceptance, nat), nat>, begun: map<nat, real>)
  {
    && (forall i :: 0 <= i < |modelCalls| ==>
      && Holds(claims, modelCalls[i].id, modelCalls[i].generation, modelCalls[i].jobId)
      && modelCalls[i].jobId in begun && modelCalls[i].jobId !in calls
      && (modelCalls[i].jobId in tasks ==> tasks[modelCalls[i].jobId].Awaiting?))
    && (forall i, k :: 0 <= i < k < |modelCalls| ==> modelCalls[i].jobId != modelCalls[k].jobId)
  }

  // ----- Decisions -----

  /** A row that shows a decision shows one that was that session's decision in memory. */
  ghost predicate RowDecided(id: Acceptance, row: Row, decided: set<Decision>) {
    row.status == RowCompleted || row.status == RowInsufficient ==>
      exists d :: d in decided && d.accepted == id && row == DecidedRow(id.sessionId, d, row.updatedAt, row.lockVersion)
  }

  ghost predicate DecisionsKnown(memory: Memory, calls: map<nat, Call>, outbox: set<DbCall>, rows: Rows,
                                 decided: set<Decision>)
  {
    && Shown(memory) <= decided
    && (forall call :: call in outbox && call.SavesDecision? ==> call.decision in decided)
    && (forall j :: j in calls && calls[j].AtFailureCommit? ==>
      j in memory.jobs && calls[j].decision.Valid() && calls[j].decision.accepted == memory.jobs[j].accepted)
    && (forall id :: id in rows ==> RowDecided(id, rows[id], decided))
  }

  // ----- Publication -----

  /** Published jobs are retired, and none is published twice. */
  ghost predicate PublishedOnce(memory: Memory, published: seq<nat>, begun: map<nat, real>) {
    && (forall i :: 0 <= i < |published| ==> published[i] in begun && !Active(memory, published[i]))
    && (forall i, k :: 0 <= i < k < |published| ==> published[i] != published[k])
  }

  // ----- The invariant -----

  /** The part of the invariant that concerns this process. */
  ghost predicate ProcessSafe(contexts: string -> SessionContext, w: World) {
    && w.config.Valid() && MemoryInv(w.config, contexts, w.memory)
    && Driven(w.config, w.clock, w.memory, w.calls, w.tasks, w.history.begun)
  }

  /** The part that ties claims, dispatches, decisions and publications together. */
  ghost predicate HistorySafe(w: World) {
    && ClaimsHeld(w.memory.jobs, w.calls, w.tasks, w.history.claims)
    && DispatchesBacked(w.history.modelCalls, w.calls, w.tasks, w.history.claims, w.history.begun)
    && DecisionsKnown(w.memory, w.calls, w.outbox, w.rows, w.history.decided)
    && PublishedOnce(w.memory, w.history.published, w.history.begun)
  }

  ghost predicate Safe(contexts: string -> SessionContext, w: World) {
    ProcessSafe(contexts, w) && TableSound(w) && HistorySafe(w)
  }

  lemma InitiallySafe(contexts: string -> SessionContext, config: Config, clock: real)
    requires config.Valid()
    ensures Safe(contexts, InitialWorld(config, clock))
  {
  }

  // ----- Memory and driving -----

  lemma DrivenKnows(w: World)
    requires Driven(w.config, w.clock, w.memory, w.calls, w.tasks, w.history.begun)
    ensures JobsKnown(w)
  {
    hide SessionDriven;
  }

  lemma QuietProcess(contexts: string -> SessionContext, w: World, n: World)
    requires ProcessSafe(contexts, w) && Quiet(w.memory, n.memory) && MemoryInv(n.config, contexts, n.memory)
    requires n.config == w.config && n.clock == w.clock && n.calls == w.calls && n.tasks == w.tasks
    requires n.history.begun == w.history.begun
    ensures ProcessSafe(contexts, n)
  {
    hide MemoryInv, Quiet, Driven;
    QuietDriven(w.config, w.clock, w.memory, n.memory, w.calls, w.tasks, w.history.begun);
  }

  lemma AppendProcess(contexts: string -> SessionContext, w: World, session: string, batch: Batch, flag: bool,
                      ack: Result<AckStatus, ErrorCode>, after: Memory, left: set<DbCall>)
    requires ProcessSafe(contexts, w) && batch.Valid()
    requires Appends(w.config, contexts(session).(completedV1 := flag), w.memory, session, batch, w.clock, after, ack)
    ensures ProcessSafe(contexts, Remembering(w, after, left)) && Quiet(w.memory, after)
  {
    hide MemoryInv, Driven, Quiet, Appends, Remembering, SameSession;
    var ctx := contexts(session).(completedV1 := flag);
    FlagOnly(contexts(session), flag);
    AppendKeepsInv(w.config, contexts, ctx, w.memory, session, batch, w.clock, after, ack);
    AppendQuiet(w.config, contexts, ctx, w.memory, session, batch, w.clock, after, ack);
    RememberingParts(w, after, left);
    QuietProcess(contexts, w, Remembering(w, after, left));
  }

  lemma FlagOnly(ctx: SessionContext, flag: bool)
    ensures SameSession(ctx.(completedV1 := flag), ctx) && SameSession(ctx, ctx.(completedV1 := flag))
  {
  }

  lemma BeginProcess(contexts: string -> SessionContext, w: World, session: string, modelId: string, flag: bool,
                     jobId: nat, result: BeginResult, after: Memory)
    requires ProcessSafe(contexts, w) && jobId !in w.history.begun && ContextValid(contexts(session))
    requires Begins(w.config, contexts(session).(completedV1 := flag), w.memory, session, modelId, jobId, w.clock, after,
                    result)
    ensures ProcessSafe(contexts, BeganWorld(w, session, jobId, result, after))
    ensures BeginOutcome(w.config, w.memory, session, jobId, w.clock, after, result)
    ensures jobId !in w.memory.jobs
  {
    hide MemoryInv, Driven, Quiet, Begins, OrphanCalls, BeganWorld, SameSession, ContextValid, BeginOutcome, JobsKnown;
    var ctx := contexts(session).(completedV1 := flag);
    FlagOnly(contexts(session), flag);
    ContextFlag(contexts(session), ctx);
    DrivenKnows(w);
    UnknownJob(w, jobId);
    BeginKeepsInv(w.config, contexts, ctx, w.memory, session, modelId, jobId, w.clock, after, result);
    BeginShape(w.config, contexts, ctx, w.memory, session, modelId, jobId, w.clock, after, result);
    BeginDriven(w.config, w.clock, w.memory, session, jobId, after, result, w.calls, w.tasks, w.history.begun);
    BeganParts(w, session, jobId, result, after);
  }

  lemma UnknownJob(w: World, j: nat)
    requires JobsKnown(w) && j !in w.history.begun
    ensures j !in w.memory.jobs
  {
  }

  lemma JobOwner(w: World, j: nat)
    requires Driven(w.config, w.clock, w.memory, w.calls, w.tasks, w.history.begun)
    requires j in w.memory.jobs
    ensures w.memory.jobs[j].accepted == Acceptance(w.config.scope, w.memory.jobs[j].sessionId)
  {
    hide SessionDriven;
  }

  /** A terminal commit by job `j`, before its call or task goes away. */
  lemma CommitProcess(contexts: string -> SessionContext, w: World, j: nat, d: Decision)
    requires ProcessSafe(contexts, w) && j in w.memory.jobs && d.Valid() && d.accepted == w.memory.jobs[j].accepted
    ensures var n := CommittedWorld(w, j, d);
      ProcessSafe(contexts, n) && Quiet(w.memory, n.memory) && !Active(n.memory, j)
  {
    hide MemoryInv, Driven, Quiet, OrphanCalls, CommittedWorld, SessionMemory.Committed, Active, Decision.Valid;
    JobOwner(w, j);
    var session := w.memory.jobs[j].sessionId;
    CommitKeepsInv(w.config, contexts, w.memory, session, j, d, w.clock);
    CommitQuiet(w.config, w.memory, session, j, d, w.clock);
    CommitRetires(w.config, contexts, w.memory, j, d, w.clock);
    CommittedParts(w, j, d);
    QuietProcess(contexts, w, CommittedWorld(w, j, d));
  }

  /** Dropping a retired job's call or task. */
  lemma DropProcess(contexts: string -> SessionContext, w: World, n: World, j: nat)
    requires ProcessSafe(contexts, w) && !Active(w.memory, j)
    requires n.config == w.config && n.clock == w.clock && n.memory == w.memory
    requires n.history.begun == w.history.begun
    requires n.calls == w.calls - {j} && n.tasks == w.tasks - {j}
    ensures ProcessSafe(contexts, n)
  {
    hide MemoryInv, Driven;
    KeysDriven(w);
    HandOver(w.config, w.clock, w.memory, w.calls, w.tasks, n.calls, n.tasks, w.history.begun);
  }

  lemma KeysDriven(w: World)
    requires Driven(w.config, w.clock, w.memory, w.calls, w.tasks, w.history.begun)
    ensures forall j :: j in w.calls ==> j !in w.tasks && j in w.memory.jobs
    ensures forall j :: j in w.tasks ==> j in w.memory.jobs
  {
    hide SessionDriven;
  }

  lemma ReleaseProcess(contexts: string -> SessionContext, w: World, j: nat)
    requires ProcessSafe(contexts, w) && !Active(w.memory, j)
    ensures ProcessSafe(contexts, Released(w, j)) && Quiet(w.memory, Released(w, j).memory)
    ensures !Active(Released(w, j).memory, j)
  {
    hide MemoryInv, Driven, Quiet;
    ReleaseInactive(w.config, contexts, w.memory, j);
    ReleaseQuiet(w.memory, j);
    QuietProcess(contexts, w, Released(w, j));
  }

  // ----- The rest: what may change without harm -----

  /** Jobs keep their owners. */
  ghost predicate OwnersKept(a: map<nat, Job>, b: map<nat, Job>) {
    forall j :: j in a ==> j in b && b[j].accepted == a[j].accepted
  }

  ghost predicate Extends(a: map<(Acceptance, nat), nat>, b: map<(Acceptance, nat), nat>) {
    forall c :: c in a ==> c in b && b[c] == a[c]
  }

  lemma ClaimsCarry(w: World, n: World)
    requires ClaimsHeld(w.memory.jobs, w.calls, w.tasks, w.history.claims)
    requires OwnersKept(w.memory.jobs, n.memory.jobs) && Extends(w.history.claims, n.history.claims)
    requires forall j :: j in n.calls && n.calls[j].AtSubmit? ==>
      || (j in w.calls && w.calls[j] == n.calls[j])
      || (j in n.memory.jobs && Holds(n.history.claims, n.memory.jobs[j].accepted, n.calls[j].generation, j))
    requires forall j :: j in n.tasks ==>
      || (j in w.tasks && w.tasks[j].generation == n.tasks[j].generation)
      || (j in w.calls && w.calls[j].AtSubmit? && w.calls[j].generation == n.tasks[j].generation)
    ensures ClaimsHeld(n.memory.jobs, n.calls, n.tasks, n.history.claims)
  {
  }

  lemma DispatchesCarry(w: World, n: World)
    requires DispatchesBacked(w.history.modelCalls, w.calls, w.tasks, w.history.claims, w.history.begun)
    requires n.history.modelCalls == w.history.modelCalls && Extends(w.history.claims, n.history.claims)
    requires forall j :: j in w.history.begun ==> j in n.history.begun
    requires forall j :: j in n.calls ==> j in w.calls || j !in w.history.begun
    requires forall j :: j in n.tasks ==> j in w.calls || (j in w.tasks && (w.tasks[j].Awaiting? ==> n.tasks[j].Awaiting?))
    ensures DispatchesBacked(n.history.modelCalls, n.calls, n.tasks, n.history.claims, n.history.begun)
  {
  }

  lemma PublishedCarry(w: World, n: World)
    requires PublishedOnce(w.memory, w.history.published, w.history.begun)
    requires n.history.published == w.history.published
    requires forall j :: j in w.history.begun ==> j in n.history.begun && (!Active(w.memory, j) ==> !Active(n.memory, j))
    ensures PublishedOnce(n.memory, n.history.published, n.history.begun)
  {
    hide Active;
  }

  /** The table shows no decision that the old one did not, unless it is a known one. */
  ghost predicate RowsCarry(a: Rows, b: Rows, decided: set<Decision>) {
    forall id :: id in b ==> (id in a && b[id] == a[id]) || RowDecided(id, b[id], decided)
  }

  lemma DecisionsCarry(w: World, n: World)
    requires DecisionsKnown(w.memory, w.calls, w.outbox, w.rows, w.history.decided)
    requires OwnersKept(w.memory.jobs, n.memory.jobs)
    requires n.history.decided == w.history.decided + Shown(n.memory)
    requires forall call :: call in n.outbox && call.SavesDecision? ==> call in w.outbox || call.decision in n.history.decided
    requires forall j :: j in n.calls && n.calls[j].AtFailureCommit? ==>
      || (j in w.calls && w.calls[j] == n.calls[j])
      || (j in n.memory.jobs && n.calls[j].decision.Valid() && n.calls[j].decision.accepted == n.memory.jobs[j].accepted)
    requires RowsCarry(w.rows, n.rows, n.history.decided)
    ensures DecisionsKnown(n.memory, n.calls, n.outbox, n.rows, n.history.decided)
  {
    hide Shown, Decision.Valid;
    forall id | id in n.rows ensures RowDecided(id, n.rows[id], n.history.decided) {
      if id in w.rows && n.rows[id] == w.rows[id] {
        assert RowDecided(id, w.rows[id], w.history.decided);
        MoreDecided(id, w.rows[id], w.history.decided, n.history.decided);
      }
    }
  }

  lemma MoreDecided(id: Acceptance, row: Row, few: set<Decision>, more: set<Decision>)
    requires RowDecided(id, row, few) && few <= more
    ensures RowDecided(id, row, more)
  {
  }

  lemma SameRowsCarry(rows: Rows, decided: set<Decision>)
    ensures RowsCarry(rows, rows, decided)
  {
  }

  lemma QuietCarries(w: World, n: World)
    requires Quiet(w.memory, n.memory)
    ensures OwnersKept(w.memory.jobs, n.memory.jobs)
    ensures forall j :: !Active(w.memory, j) ==> !Active(n.memory, j)
  {
    forall j | !Active(w.memory, j) ensures !Active(n.memory, j) {
      QuietInactive(w.memory, n.memory, j);
    }
  }

  // ----- Steps of the memory -----

  lemma QuietHistory(w: World, n: World)
    requires HistorySafe(w) && Quiet(w.memory, n.memory)
    requires n.calls == w.calls && n.tasks == w.tasks && n.rows == w.rows
    requires n.history == w.history.(decided := w.history.decided + Shown(n.memory))
    requires forall call :: call in n.outbox && call.SavesDecision? ==> call in w.outbox || call.decision in n.history.decided
    ensures HistorySafe(n)
  {
    hide Shown, Active, DispatchesBacked, ClaimsHeld, DecisionsKnown, PublishedOnce, Quiet, OwnersKept, RowsCarry;
    QuietCarries(w, n);
    ClaimsCarry(w, n);
    DispatchesCarry(w, n);
    PublishedCarry(w, n);
    SameRowsCarry(w.rows, n.history.decided);
    DecisionsCarry(w, n);
  }

  /** A step that only answers a request from memory. */
  lemma QuietStepSafe(contexts: string -> SessionContext, w: World, m: Memory, left: set<DbCall>)
    requires Safe(contexts, w) && Quiet(w.memory, m) && MemoryInv(w.config, contexts, m)
    requires forall call :: call in left && call.SavesDecision? ==> call.decision in Shown(m)
    ensures ProcessSafe(contexts, Remembering(w, m, left)) && HistorySafe(Remembering(w, m, left))
  {
    hide MemoryInv, Driven, Quiet, HistorySafe, Shown, Remembering, TableSound;
    RememberingParts(w, m, left);
    QuietProcess(contexts, w, Remembering(w, m, left));
    QuietHistory(w, Remembering(w, m, left));
  }

  lemma OrphanCallsFail(m: Memory, now: real)
    ensures forall call :: call in OrphanCalls(m, now) ==> call.FailsJob?
  {
  }

  /** Older jobs keep their owners across a begin. */
  lemma BeginJobs(config: Config, before: Memory, session: string, jobId: nat, now: real, result: BeginResult, after: Memory)
    requires BeginOutcome(config, before, session, jobId, now, after, result) && jobId !in before.jobs
    ensures OwnersKept(before.jobs, after.jobs)
  {
    if result.Started? || result.Escaped? {
      var m := Besides(after, session, jobId);
      assert forall j :: j in before.jobs ==> j in m.jobs;
    }
  }

  lemma BesidesActive(after: Memory, session: string, jobId: nat, j: nat)
    requires !Active(Besides(after, session, jobId), j)
    requires session in after.sessions && after.sessions[session].activeJobId != Some(j)
    ensures !Active(after, j)
  {
    var m := Besides(after, session, jobId);
    forall s | s in after.sessions ensures after.sessions[s].activeJobId != Some(j) {
      if s != session {
        assert m.sessions[s] == after.sessions[s];
      }
    }
  }

  lemma BeginActive(config: Config, before: Memory, session: string, jobId: nat, now: real, result: BeginResult,
                    after: Memory, j: nat)
    requires BeginOutcome(config, before, session, jobId, now, after, result)
    requires !Active(before, j) && j != jobId
    ensures !Active(after, j)
  {
    hide Active, Quiet, Besides;
    if result.Started? || result.Escaped? {
      QuietInactive(before, Besides(after, session, jobId), j);
      BesidesActive(after, session, jobId, j);
    } else {
      QuietInactive(before, after, j);
    }
  }

  lemma BeginHistory(w: World, session: string, jobId: nat, result: BeginResult, after: Memory)
    requires HistorySafe(w) && JobsKnown(w) && jobId !in w.history.begun
    requires Driven(w.config, w.clock, w.memory, w.calls, w.tasks, w.history.begun)
    requires BeginOutcome(w.config, w.memory, session, jobId, w.clock, after, result)
    ensures HistorySafe(BeganWorld(w, session, jobId, result, after))
  {
    hide Shown, Active, BeganWorld, OrphanCalls, Driven, JobsKnown, BeginOutcome, DispatchesBacked, ClaimsHeld,
      DecisionsKnown, PublishedOnce, OwnersKept, RowsCarry;
    var n := BeganWorld(w, session, jobId, result, after);
    BeganParts(w, session, jobId, result, after);
    KeysDriven(w);
    UnknownJob(w, jobId);
    BeginJobs(w.config, w.memory, session, jobId, w.clock, result, after);
    ClaimsCarry(w, n);
    DispatchesCarry(w, n);
    forall j | j in w.history.begun && !Active(w.memory, j) ensures !Active(n.memory, j) {
      BeginActive(w.config, w.memory, session, jobId, w.clock, result, after, j);
    }
    PublishedCarry(w, n);
    SameRowsCarry(w.rows, n.history.decided);
    DecisionsCarry(w, n);
  }

  // ----- Steps of the job's call -----

  lemma AlreadyShown(w: World)
    requires DecisionsKnown(w.memory, w.calls, w.outbox, w.rows, w.history.decided)
    ensures w.history.decided == w.history.decided + Shown(w.memory)
  {
    hide Shown;
  }

  lemma SameOwners(jobs: map<nat, Job>)
    ensures OwnersKept(jobs, jobs)
  {
  }

  /** A step that leaves memory, clock and decisions alone. */
  ghost predicate SameMemory(w: World, n: World) {
    && n.config == w.config && n.clock == w.clock && n.memory == w.memory && n.outbox <= w.outbox
    && n.history.begun == w.history.begun
    && n.history.decided == w.history.decided && n.history.published == w.history.published
  }

  /** One call changes hands, within the process. */
  lemma CallProcess(contexts: string -> SessionContext, w: World, n: World, j: nat)
    requires ProcessSafe(contexts, w) && SameMemory(w, n) && j in w.calls
    requires forall k :: k != j ==> (k in n.calls <==> k in w.calls) && (k in n.tasks <==> k in w.tasks)
    requires j in n.calls <==> j !in n.tasks
    ensures ProcessSafe(contexts, n)
  {
    hide MemoryInv, Driven, Active;
    KeysDriven(w);
    HandOver(w.config, w.clock, w.memory, w.calls, w.tasks, n.calls, n.tasks, w.history.begun);
  }

  lemma CallHistory(w: World, n: World, j: nat)
    requires HistorySafe(w) && SameMemory(w, n) && j in w.calls && n.history.modelCalls == w.history.modelCalls
    requires Extends(w.history.claims, n.history.claims) && RowsCarry(w.rows, n.rows, w.history.decided)
    requires forall k :: k in n.calls && k != j ==> k in w.calls && n.calls[k] == w.calls[k]
    requires forall k :: k in n.tasks ==>
      (k in w.tasks && n.tasks[k] == w.tasks[k]) || (k == j && w.calls[j].AtSubmit? && w.calls[j].generation == n.tasks[j].generation)
    requires j in n.calls && n.calls[j].AtSubmit? ==>
      j in w.memory.jobs && Holds(n.history.claims, w.memory.jobs[j].accepted, n.calls[j].generation, j)
    requires j in n.calls && n.calls[j].AtFailureCommit? ==>
      j in w.memory.jobs && n.calls[j].decision.Valid() && n.calls[j].decision.accepted == w.memory.jobs[j].accepted
    ensures HistorySafe(n)
  {
    hide Shown, Active, DispatchesBacked, ClaimsHeld, DecisionsKnown, PublishedOnce, OwnersKept, RowsCarry, Decision.Valid;
    AlreadyShown(w);
    SameOwners(w.memory.jobs);
    ClaimsCarry(w, n);
    DispatchesCarry(w, n);
    PublishedCarry(w, n);
    DecisionsCarry(w, n);
  }

  lemma SavedRowsCarry(rows: Rows, id: Acceptance, session: string, now: real, decided: set<Decision>)
    ensures RowsCarry(rows, SavedPending(rows, id, session, now).0, decided)
  {
  }

  lemma ClaimedRowsCarry(rows: Rows, id: Acceptance, now: real, decided: set<Decision>)
    ensures RowsCarry(rows, JobRows.Claimed(rows, id, now).0, decided)
  {
  }

  lemma SaveStepSafe(contexts: string -> SessionContext, w: World, j: nat, ending: Ending)
    requires Safe(contexts, w) && j in w.memory.jobs && j in w.calls && w.calls[j] == AtSave
    ensures ProcessSafe(contexts, SavedWorld(w, j, ending)) && HistorySafe(SavedWorld(w, j, ending))
  {
    hide ProcessSafe, HistorySafe, TableSound, SavedWorld, SavedPending, RowsCarry;
    var n, id := SavedWorld(w, j, ending), Owner(w, j);
    SavedParts(w, j, ending);
    SavedRowsCarry(w.rows, id, id.sessionId, w.clock, w.history.decided);
    SameRowsCarry(w.rows, w.history.decided);
    CallNotTask(contexts, w, j);
    CallProcess(contexts, w, n, j);
    CallHistory(w, n, j);
  }

  lemma CallNotTask(contexts: string -> SessionContext, w: World, j: nat)
    requires ProcessSafe(contexts, w) && j in w.calls
    ensures j !in w.tasks && j in w.memory.jobs
  {
    hide MemoryInv, Driven;
    KeysDriven(w);
  }

  lemma ClaimStepSafe(contexts: string -> SessionContext, w: World, j: nat, ending: Ending)
    requires Safe(contexts, w) && j in w.memory.jobs && j in w.calls && w.calls[j] == AtClaim
    ensures ProcessSafe(contexts, ClaimedWorld(w, j, ending)) && HistorySafe(ClaimedWorld(w, j, ending))
  {
    hide ProcessSafe, HistorySafe, TableSound, ClaimedWorld, JobRows.Claimed, RowsCarry, JobsKnown;
    var n, id := ClaimedWorld(w, j, ending), Owner(w, j);
    ClaimedParts(w, j, ending);
    ClaimedRowsCarry(w.rows, id, w.clock, w.history.decided);
    SameRowsCarry(w.rows, w.history.decided);
    ProcessKnows(contexts, w);
    ClaimStepSound(w, j, ending);
    CallNotTask(contexts, w, j);
    CallProcess(contexts, w, n, j);
    CallHistory(w, n, j);
  }

  lemma ProcessKnows(contexts: string -> SessionContext, w: World)
    requires ProcessSafe(contexts, w)
    ensures JobsKnown(w)
  {
    hide MemoryInv, Driven, JobsKnown;
    DrivenKnows(w);
  }

  lemma SubmitStepSafe(contexts: string -> SessionContext, w: World, j: nat, accepted: bool, n: World)
    requires Safe(contexts, w) && j in w.calls && w.calls[j].AtSubmit?
    requires n == if accepted then w.(calls := w.calls - {j}, tasks := w.tasks[j := Queued(w.calls[j].generation)])
                  else w.(calls := w.calls[j := Failing])
    ensures ProcessSafe(contexts, n) && HistorySafe(n)
  {
    hide ProcessSafe, HistorySafe, TableSound, RowsCarry;
    SameRowsCarry(w.rows, w.history.decided);
    CallNotTask(contexts, w, j);
    CallProcess(contexts, w, n, j);
    CallHistory(w, n, j);
  }

  lemma StartFailedStepSafe(contexts: string -> SessionContext, w: World, j: nat)
    requires Safe(contexts, w) && j in w.memory.jobs && j in w.calls && w.calls[j] == Failing
    ensures ProcessSafe(contexts, StartFailedWorld(w, j)) && HistorySafe(StartFailedWorld(w, j))
  {
    hide ProcessSafe, HistorySafe, TableSound, RowsCarry, StartFailedWorld, Active, Decision.Valid;
    var n := StartFailedWorld(w, j);
    var quiet := n.(outbox := w.outbox);
    StartFailedParts(w, j);
    SameRowsCarry(w.rows, w.history.decided);
    CallNotTask(contexts, w, j);
    if w.memory.jobs[j].request.None? {
      Requestless(contexts, w, j);
      DropProcess(contexts, w, quiet, j);
    } else {
      CallProcess(contexts, w, quiet, j);
    }
    CallHistory(w, quiet, j);
    MoreFailures(contexts, quiet, n);
  }

  lemma Requestless(contexts: string -> SessionContext, w: World, j: nat)
    requires ProcessSafe(contexts, w) && j in w.memory.jobs && w.memory.jobs[j].request.None?
    ensures !Active(w.memory, j)
  {
    hide MemoryInv, Driven, Active;
    if Active(w.memory, j) {
      ActiveHoldsRequest(w.config, contexts, w.memory, j);
    }
  }

  /** Leaving more calls behind that save no decision. */
  lemma MoreFailures(contexts: string -> SessionContext, w: World, n: World)
    requires ProcessSafe(contexts, w) && HistorySafe(w) && n == w.(outbox := n.outbox)
    requires forall call :: call in n.outbox && call !in w.outbox ==> !call.SavesDecision?
    ensures ProcessSafe(contexts, n) && HistorySafe(n)
  {
    hide MemoryInv, Driven, DispatchesBacked, ClaimsHeld, PublishedOnce, Shown, RowDecided;
  }

  // ----- Terminal commits -----

  lemma CommittedShows(config: Config, m: Memory, session: string, jobId: nat, d: Decision, now: real)
    ensures SessionMemory.Committed(config, m, session, jobId, d, now).1 ==>
      d in Shown(SessionMemory.Committed(config, m, session, jobId, d, now).0)
  {
    if SessionMemory.Committed(config, m, session, jobId, d, now).1 {
      assert SessionMemory.Committed(config, m, session, jobId, d, now).0.sessions[session].decision == Some(d);
    }
  }

  /** Only an active job publishes. */
  lemma PublisherWasActive(config: Config, m: Memory, session: string, jobId: nat, d: Decision, now: real)
    requires SessionMemory.Committed(config, m, session, jobId, d, now).1
    ensures Active(m, jobId)
  {
    assert m.sessions[session].activeJobId == Some(jobId);
  }

  lemma CommitHistory(contexts: string -> SessionContext, w: World, j: nat, d: Decision)
    requires ProcessSafe(contexts, w) && HistorySafe(w) && j in w.memory.jobs
    requires d.Valid() && d.accepted == w.memory.jobs[j].accepted
    ensures HistorySafe(CommittedWorld(w, j, d))
  {
    hide ProcessSafe, Shown, Active, DispatchesBacked, ClaimsHeld, DecisionsKnown, PublishedOnce, OwnersKept, RowsCarry,
      Decision.Valid, CommittedWorld, SessionMemory.Committed, Quiet;
    var n, session := CommittedWorld(w, j, d), w.memory.jobs[j].sessionId;
    CommittedParts(w, j, d);
    CommitProcess(contexts, w, j, d);
    CommittedShows(w.config, w.memory, session, j, d, w.clock);
    QuietCarries(w, n);
    ClaimsCarry(w, n);
    DispatchesCarry(w, n);
    SameRowsCarry(w.rows, n.history.decided);
    DecisionsCarry(w, n);
    CommitPublishes(contexts, w, j, d);
  }

  lemma CommitPublishes(contexts: string -> SessionContext, w: World, j: nat, d: Decision)
    requires ProcessSafe(contexts, w) && j in w.memory.jobs && d.Valid() && d.accepted == w.memory.jobs[j].accepted
    requires PublishedOnce(w.memory, w.history.published, w.history.begun)
    ensures var n := CommittedWorld(w, j, d);
      PublishedOnce(n.memory, n.history.published, n.history.begun)
  {
    hide ProcessSafe, Shown, Active, Decision.Valid, CommittedWorld, SessionMemory.Committed, OrphanCalls, Quiet, JobsKnown;
    var n := CommittedWorld(w, j, d);
    CommittedParts(w, j, d);
    CommitProcess(contexts, w, j, d);
    QuietCarries(w, n);
    ProcessKnows(contexts, w);
    KnownJob(w, j);
    if SessionMemory.Committed(w.config, w.memory, w.memory.jobs[j].sessionId, j, d, w.clock).1 {
      PublisherWasActive(w.config, w.memory, w.memory.jobs[j].sessionId, j, d, w.clock);
    }
  }

  lemma KnownJob(w: World, j: nat)
    requires JobsKnown(w) && j in w.memory.jobs
    ensures j in w.history.begun && w.history.begun[j] <= w.clock
  {
  }

  /** Dropping the call and task of a retired job, and its request. */
  lemma DropHistory(w: World, n: World, j: nat)
    requires HistorySafe(w)
    requires Quiet(w.memory, n.memory) && Shown(n.memory) <= Shown(w.memory)
    requires n.calls == w.calls - {j} && n.tasks == w.tasks - {j}
    requires n.outbox == w.outbox && n.rows == w.rows && n.history == w.history
    ensures HistorySafe(n)
  {
    hide Shown, Active, DispatchesBacked, ClaimsHeld, DecisionsKnown, PublishedOnce, OwnersKept, RowsCarry, Quiet;
    AlreadyShown(w);
    QuietCarries(w, n);
    ClaimsCarry(w, n);
    DispatchesCarry(w, n);
    PublishedCarry(w, n);
    SameRowsCarry(w.rows, n.history.decided);
    DecisionsCarry(w, n);
  }

  lemma ReleasedShows(w: World, j: nat)
    ensures Shown(Released(w, j).memory) == Shown(w.memory)
  {
  }

  lemma SameQuietShows(w: World)
    ensures Quiet(w.memory, w.memory)
  {
    SameQuiet(w.memory);
  }

  lemma CommitFailedStepSafe(contexts: string -> SessionContext, w: World, j: nat, n: World)
    requires Safe(contexts, w) && j in w.memory.jobs && j in w.calls && w.calls[j].AtFailureCommit?
    requires n == CommittedWorld(w, j, w.calls[j].decision).(calls := w.calls - {j})
    ensures ProcessSafe(contexts, n) && HistorySafe(n)
  {
    hide ProcessSafe, TableSound, Active, Decision.Valid, CommittedWorld, Quiet, Shown, DispatchesBacked, ClaimsHeld,
      PublishedOnce, RowDecided;
    var d := w.calls[j].decision;
    var m := CommittedWorld(w, j, d);
    CallNotTask(contexts, w, j);
    CommittedParts(w, j, d);
    CommitProcess(contexts, w, j, d);
    CommitHistory(contexts, w, j, d);
    DropProcess(contexts, m, n, j);
    SameQuietShows(m);
    hide HistorySafe;
    DropHistory(m, n, j);
  }

  // ----- Steps of a dispatched task -----

  lemma TaskKnown(contexts: string -> SessionContext, w: World, j: nat)
    requires ProcessSafe(contexts, w) && j in w.tasks
    ensures j !in w.calls && j in w.memory.jobs
  {
    hide MemoryInv, Driven;
    KeysDriven(w);
  }

  lemma TaskRepliesStepSafe(contexts: string -> SessionContext, w: World, j: nat, d: Decision, n: World)
    requires Safe(contexts, w) && j in w.memory.jobs && j in w.tasks && d.Valid() && d.accepted == w.memory.jobs[j].accepted
    requires n == Released(CommittedWorld(w, j, d), j).(tasks := w.tasks - {j})
    ensures ProcessSafe(contexts, n) && HistorySafe(n)
  {
    hide ProcessSafe, TableSound, Active, Decision.Valid, CommittedWorld, Quiet, Shown, HistorySafe;
    var m := CommittedWorld(w, j, d);
    TaskKnown(contexts, w, j);
    CommittedParts(w, j, d);
    CommitProcess(contexts, w, j, d);
    CommitHistory(contexts, w, j, d);
    ReleaseProcess(contexts, m, j);
    ReleasedShows(m, j);
    DropProcess(contexts, Released(m, j), n, j);
    DropHistory(m, n, j);
  }

  lemma TaskCancelledStepSafe(contexts: string -> SessionContext, w: World, j: nat, n: World)
    requires Safe(contexts, w) && j in w.tasks && !Active(w.memory, j)
    requires n == Released(w, j).(tasks := w.tasks - {j})
    ensures ProcessSafe(contexts, n) && HistorySafe(n)
  {
    hide ProcessSafe, TableSound, Active, Quiet, Shown, HistorySafe;
    TaskKnown(contexts, w, j);
    ReleaseProcess(contexts, w, j);
    ReleasedShows(w, j);
    DropProcess(contexts, Released(w, j), n, j);
    DropHistory(w, n, j);
  }

  lemma TaskHistory(w: World, n: World, j: nat, id: Acceptance, generation: nat, request: Request)
    requires HistorySafe(w) && j in w.tasks && w.tasks[j] == Queued(generation) && j !in w.calls
    requires j in w.memory.jobs && w.memory.jobs[j].accepted == id && j in w.history.begun
    requires n == w.(tasks := w.tasks[j := Awaiting(generation, request)],
                     history := w.history.(modelCalls := w.history.modelCalls + [ModelCall(id, generation, j)]))
    ensures HistorySafe(n)
  {
    hide Shown, Active, DecisionsKnown, PublishedOnce;
  }

  lemma TaskStartsStepSafe(contexts: string -> SessionContext, w: World, j: nat)
    requires Safe(contexts, w) && j in w.memory.jobs && j in w.tasks && w.tasks[j].Queued?
    ensures ProcessSafe(contexts, StartedTask(w, j)) && HistorySafe(StartedTask(w, j))
  {
    hide ProcessSafe, TableSound, Active, Quiet, Shown, HistorySafe, JobsKnown;
    var n, job := StartedTask(w, j), w.memory.jobs[j];
    TaskKnown(contexts, w, j);
    if job.request.None? {
      Requestless(contexts, w, j);
      DropProcess(contexts, w, n, j);
      SameQuietShows(w);
      DropHistory(w, n, j);
    } else {
      ProcessKnows(contexts, w);
      KnownJob(w, j);
      TaskProcess(contexts, w, n, j);
      TaskHistory(w, n, j, job.accepted, w.tasks[j].generation, job.request.value);
    }
  }

  lemma TaskProcess(contexts: string -> SessionContext, w: World, n: World, j: nat)
    requires ProcessSafe(contexts, w) && j in w.tasks
    requires n == w.(tasks := n.tasks, history := w.history.(modelCalls := n.history.modelCalls))
    requires n.tasks.Keys == w.tasks.Keys
    ensures ProcessSafe(contexts, n)
  {
    hide MemoryInv, Driven, Active;
    KeysDriven(w);
    HandOver(w.config, w.clock, w.memory, w.calls, w.tasks, n.calls, n.tasks, w.history.begun);
  }

  // ----- Steps of the database, the clock and the process -----

  lemma DecidedRowsCarry(rows: Rows, d: Decision, now: real, decided: set<Decision>)
    requires d in decided
    ensures RowsCarry(rows, SavedDecision(rows, d.accepted.sessionId, d, now).0, decided)
  {
    var after := SavedDecision(rows, d.accepted.sessionId, d, now).0;
    var id := d.accepted;
    if id in after && (id !in rows || after[id] != rows[id]) {
      assert after[id] == DecidedRow(id.sessionId, d, after[id].updatedAt, after[id].lockVersion);
    }
  }

  lemma FailingRowsCarry(rows: Rows, id: Acceptance, failure: FailureCode, seconds: real, now: real, decided: set<Decision>)
    ensures RowsCarry(rows, FailedJob(rows, id, failure, now).0, decided)
    ensures RowsCarry(rows, MarkedCancelled(rows, id, now).0, decided)
  {
  }

  lemma SweepingRowsCarry(rows: Rows, seconds: real, now: real, decided: set<Decision>)
    ensures RowsCarry(rows, OrphansFailed(rows, seconds, now), decided)
    ensures RowsCarry(rows, InflightFailed(rows, now), decided)
    ensures RowsCarry(rows, Retained(rows, seconds, now), decided)
  {
  }

  /** A step of the table alone. */
  lemma TableStepSafe(contexts: string -> SessionContext, w: World, n: World)
    requires Safe(contexts, w) && RowsCarry(w.rows, n.rows, w.history.decided)
    requires n == w.(rows := n.rows, outbox := n.outbox, history := w.history.(generations := n.history.generations))
    requires n.outbox <= w.outbox
    ensures ProcessSafe(contexts, n) && HistorySafe(n)
  {
    hide MemoryInv, Driven, TableSound, DispatchesBacked, ClaimsHeld, DecisionsKnown, PublishedOnce, RowsCarry, OwnersKept,
      Shown;
    AlreadyShown(w);
    SameOwners(w.memory.jobs);
    DecisionsCarry(w, n);
  }

  lemma OpDelivered(contexts: string -> SessionContext, w: World, call: DbCall, kept: bool)
    requires Safe(contexts, w) && call in w.outbox
    ensures var n := Delivered(w, call).(outbox := if kept then w.outbox else w.outbox - {call});
      ProcessSafe(contexts, n) && HistorySafe(n)
  {
    hide ProcessSafe, TableSound, Delivered, SavedDecision, FailedJob, MarkedCancelled, RowsCarry, DispatchesBacked,
      ClaimsHeld, PublishedOnce, Shown, RowDecided;
    DeliveredParts(w, call);
    match call {
      case SavesDecision(d) => DecidedRowsCarry(w.rows, d, w.clock, w.history.decided);
      case FailsJob(id, failure) => FailingRowsCarry(w.rows, id, failure, 0.0, w.clock, w.history.decided);
      case MarksCancelled(id) => FailingRowsCarry(w.rows, id, OrphanCleanup, 0.0, w.clock, w.history.decided);
    }
    hide HistorySafe;
    TableStepSafe(contexts, w, Delivered(w, call).(outbox := if kept then w.outbox else w.outbox - {call}));
  }

  lemma TickSafe(contexts: string -> SessionContext, w: World, seconds: real)
    requires Safe(contexts, w) && seconds >= 0.0
    ensures ProcessSafe(contexts, w.(clock := w.clock + seconds)) && HistorySafe(w.(clock := w.clock + seconds))
  {
    hide MemoryInv, TableSound, DispatchesBacked, ClaimsHeld, DecisionsKnown, PublishedOnce, SessionDriven;
  }

  /** A restart forgets the memory, the calls and the tasks, and opens a new scope of request ids. */
  lemma RestartSafe(contexts: string -> SessionContext, w: World, scope: nat, lost: set<DbCall>, n: World)
    requires Safe(contexts, w)
    requires n == w.(config := w.config.(scope := scope), memory := EmptyMemory, calls := map[], tasks := map[],
                     outbox := w.outbox - lost)
    ensures ProcessSafe(contexts, n) && HistorySafe(n)
  {
    hide TableSound, MemoryInv, RowDecided;
    RestartMemory(contexts, w, n);
  }

  lemma RestartMemory(contexts: string -> SessionContext, w: World, n: World)
    requires ProcessSafe(contexts, w) && n.memory == EmptyMemory && n.calls == map[] && n.tasks == map[]
    requires n.config.Valid() && n.clock == w.clock && n.history == w.history
    ensures ProcessSafe(contexts, n) && Shown(n.memory) == {}
  {
  }

  // ----- Every step, every run -----

  lemma AppendStepSafe(contexts: string -> SessionContext, w: World, a: Action)
    requires Safe(contexts, w) && a.Append? && Guard(w, a)
    requires Appends(w.config, contexts(a.session).(completedV1 := a.completedV1), w.memory, a.session, a.batch, w.clock,
                     a.after, a.ack)
    ensures ProcessSafe(contexts, Apply(contexts, w, a)) && HistorySafe(Apply(contexts, w, a))
  {
    hide ProcessSafe, HistorySafe, TableSound, Appends, Remembering, OrphanCalls, CheckBatch, Quiet, MemoryInv;
    AppendProcess(contexts, w, a.session, a.batch, a.completedV1, a.ack, a.after, {});
    ProcessMemory(contexts, Remembering(w, a.after, {}));
    RememberingParts(w, a.after, {});
    QuietStepSafe(contexts, w, a.after, {});
  }

  lemma ProcessMemory(contexts: string -> SessionContext, w: World)
    requires ProcessSafe(contexts, w)
    ensures MemoryInv(w.config, contexts, w.memory)
  {
    hide MemoryInv, Driven;
  }

  lemma BeginStepSafe(contexts: string -> SessionContext, w: World, session: string, modelId: string, flag: bool,
                      jobId: nat, result: BeginResult, after: Memory)
    requires Safe(contexts, w) && jobId !in w.history.begun && ContextValid(contexts(session))
    requires Begins(w.config, contexts(session).(completedV1 := flag), w.memory, session, modelId, jobId, w.clock, after,
                    result)
    ensures ProcessSafe(contexts, BeganWorld(w, session, jobId, result, after))
    ensures HistorySafe(BeganWorld(w, session, jobId, result, after))
  {
    hide MemoryInv, Driven, HistorySafe, TableSound, Begins, BeganWorld, ContextValid, BeginOutcome, JobsKnown;
    BeginProcess(contexts, w, session, modelId, flag, jobId, result, after);
    DrivenKnows(w);
    BeginHistory(w, session, jobId, result, after);
  }

  lemma CancelStepSafe(contexts: string -> SessionContext, w: World, session: string)
    requires Safe(contexts, w)
    ensures ProcessSafe(contexts, CancelledWorld(w, session)) && HistorySafe(CancelledWorld(w, session))
  {
    hide HistorySafe, TableSound, Driven, MemoryInv, Cancelled, Gone, Quiet, Shown, Remembering;
    GoneKeepsInv(w.config, contexts, w.memory, session);
    CancelQuiet(w.memory, session);
    var id := Cancelled(w.memory, session).1;
    QuietStepSafe(contexts, w, Gone(w.memory, session), if id.Some? then {MarksCancelled(id.value)} else {});
  }

  lemma SweepStepSafe(contexts: string -> SessionContext, w: World)
    requires Safe(contexts, w)
    ensures var n := Remembering(w, Lapsed(w.memory, w.clock), OrphanCalls(w.memory, w.clock));
      ProcessSafe(contexts, n) && HistorySafe(n)
  {
    hide HistorySafe, TableSound, Driven, MemoryInv, Lapsed, Quiet, Shown, Remembering, OrphanCalls;
    LapseKeepsInv(w.config, contexts, w.memory, w.clock);
    LapseQuiet(w.memory, w.clock);
    OrphanCallsFail(w.memory, w.clock);
    QuietStepSafe(contexts, w, Lapsed(w.memory, w.clock), OrphanCalls(w.memory, w.clock));
  }

  /** Clearing the request of a job that is no longer active. */
  lemma ClearStepSafe(contexts: string -> SessionContext, w: World, j: nat)
    requires Safe(contexts, w) && !Active(w.memory, j)
    ensures ProcessSafe(contexts, Released(w, j)) && HistorySafe(Released(w, j))
  {
    hide ProcessSafe, TableSound, Active, Quiet, Shown, HistorySafe;
    ReleaseProcess(contexts, w, j);
    ReleasedShows(w, j);
    ClearHistory(w, Released(w, j));
  }

  lemma ClearHistory(w: World, n: World)
    requires HistorySafe(w) && Quiet(w.memory, n.memory) && Shown(n.memory) == Shown(w.memory)
    requires n == w.(memory := n.memory)
    ensures HistorySafe(n)
  {
    hide Shown, Active, DispatchesBacked, ClaimsHeld, DecisionsKnown, PublishedOnce, OwnersKept, RowsCarry, Quiet;
    AlreadyShown(w);
    QuietHistory(w, n);
  }

  lemma AnswerShown(m: Memory, session: string)
    ensures AnswerFor(m, session).Decided? ==> AnswerFor(m, session).decision in Shown(m)
  {
  }

  lemma ReadBackStepSafe(contexts: string -> SessionContext, w: World, session: string)
    requires Safe(contexts, w)
    ensures ProcessSafe(contexts, ReadBackWorld(w, session)) && HistorySafe(ReadBackWorld(w, session))
  {
    hide HistorySafe, TableSound, Driven, MemoryInv, Quiet, Shown, Remembering, AnswerFor;
    var answer := AnswerFor(w.memory, session);
    SameQuiet(w.memory);
    AnswerShown(w.memory, session);
    QuietStepSafe(contexts, w, w.memory, if answer.Decided? then {SavesDecision(answer.decision)} else {});
  }

  /** Every step of the system keeps the invariant. */
  lemma StepIsSafe(contexts: string -> SessionContext, w: World, a: Action, n: World)
    requires (forall s :: ContextValid(contexts(s))) && Safe(contexts, w) && StepOf(contexts, w, a, n)
    ensures Safe(contexts, n)
  {
    hide ProcessSafe, HistorySafe, TableSound, Appends, Begins, ContextValid, BeganWorld, CancelledWorld, ReadBackWorld,
      Remembering, StartFailedWorld, CommittedWorld, StartedTask, Released, Delivered, SavedWorld, ClaimedWorld,
      OrphansFailed, Retained, InflightFailed, Lapsed, OrphanCalls, JobsKnown, RowsCarry, Decides, CheckBatch, Active;
    ProcessKnows(contexts, w);
    StepKeepsTable(contexts, w, a);
    SameRowsCarry(w.rows, w.history.decided);
    match a {
      case Tick(seconds) => TickSafe(contexts, w, seconds);
      case Append(_, _, _, _, _) => AppendStepSafe(contexts, w, a);
      case Begin(session, modelId, flag, jobId, result, after) =>
        BeginStepSafe(contexts, w, session, modelId, flag, jobId, result, after);
      case Save(j, ending) => SaveStepSafe(contexts, w, j, ending);
      case Claim(j, ending) => ClaimStepSafe(contexts, w, j, ending);
      case Submit(j, accepted) => SubmitStepSafe(contexts, w, j, accepted, n);
      case StartFailed(j) => StartFailedStepSafe(contexts, w, j);
      case CommitFailed(j) => CommitFailedStepSafe(contexts, w, j, n);
      case TaskStarts(j) => TaskStartsStepSafe(contexts, w, j);
      case TaskReplies(j, d) =>
        DecidesValid(w.tasks[j].request, d);
        TaskRepliesStepSafe(contexts, w, j, d, n);
      case TaskCancelled(j) => TaskCancelledStepSafe(contexts, w, j, n);
      case ClearJob(j) => ClearStepSafe(contexts, w, j);
      case CancelSession(session) => CancelStepSafe(contexts, w, session);
      case Sweep => SweepStepSafe(contexts, w);
      case ReadBack(session) => ReadBackStepSafe(contexts, w, session);
      case Deliver(call, kept) => OpDelivered(contexts, w, call, kept);
      case Lose(_) => TableStepSafe(contexts, w, n);
      case Restart(scope, lost) => RestartSafe(contexts, w, scope, lost, n);
      case _ =>
        SweepingRowsCarry(w.rows, w.config.orphanSeconds, w.clock, w.history.decided);
        SweepingRowsCarry(w.rows, w.config.retentionSeconds, w.clock, w.history.decided);
        TableStepSafe(contexts, w, n);
    }
  }

  lemma DecidesValid(request: Request, d: Decision)
    requires Decides(request, d)
    ensures d.Valid()
  {
    hide Admits, Decision.Valid;
  }

  /** Every world of every run satisfies the invariant. */
  lemma {:induction false} RunIsSafe(contexts: string -> SessionContext, config: Config, worlds: seq<World>,
                                     actions: seq<Action>, i: nat)
    requires RunOf(contexts, config, worlds, actions) && i < |worlds|
    ensures Safe(contexts, worlds[i])
  {
    hide StepOf, Safe, ContextValid, InitialWorld;
    assert i > 0 ==> actions[i - 1] == actions[i - 1];
    if i == 0 {
      InitiallySafe(contexts, config, worlds[0].clock);
    } else {
      RunIsSafe(contexts, config, worlds, actions, i - 1);
      StepIsSafe(contexts, worlds[i - 1], actions[i - 1], worlds[i]);
    }
  }
}
