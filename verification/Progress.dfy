/**
 The other side of safety: the guards of the protocol do not block it. From any state of any run, a job
 whose `complete` call is about to save can be carried to a published decision and a completed row.
 */
module Progress {
  import opened Common
  import opened Ingestion
  import opened EvidenceSummary
  import opened Gate
  import opened Completion
  import opened SessionMemory
  import opened JobRows
  import opened Protocol
  import opened ProtocolFacts
  import opened Observations
  import opened Grounding
  import opened Stub
  import ProtocolRows

  /** The session's active job, within its deadline, and the request that it holds. */
  predicate AtWork(w: World, session: string, j: nat, request: Request) {
    && session in w.memory.sessions && j in w.memory.jobs
    && w.memory.sessions[session].status == Pending && w.memory.sessions[session].activeJobId == Some(j)
    && w.clock < w.memory.sessions[session].expiresAt
    && w.memory.jobs[j] == Job(session, Acceptance(w.config.scope, session), Some(request))
  }

  /** Memory, clock and what the process was told stay the same. */
  predicate SameProcess(a: World, b: World) {
    && b.config == a.config && b.clock == a.clock && b.memory == a.memory
    && b.history.published == a.history.published
  }

  predicate RowIs(w: World, id: Acceptance, status: RowStatus) {
    id in w.rows && w.rows[id].status == status && w.rows[id].sessionId == id.sessionId
  }

  lemma Saves(contexts: string -> SessionContext, w: World, session: string, j: nat, request: Request) returns (n: World)
    requires AtWork(w, session, j, request) && j in w.calls && w.calls[j] == AtSave
    requires Acceptance(w.config.scope, session) !in w.rows && !SessionBusy(w.rows, session)
    ensures StepOf(contexts, w, Save(j, Answered), n) && SameProcess(w, n)
    ensures RowIs(n, Acceptance(w.config.scope, session), RowPending) && j in n.calls && n.calls[j] == AtClaim
  {
    hide SessionBusy, ClaimedWorld, Delivered, BeganWorld, CommittedWorld, StartFailedWorld, StartedTask, Remembering, Released, CancelledWorld, ReadBackWorld,
      OrphansFailed, InflightFailed, Retained, Lapsed, Active, Decides;
    n := SavedWorld(w, j, Answered);
    SavedParts(w, j, Answered);
  }

  lemma Claims(contexts: string -> SessionContext, w: World, session: string, j: nat, request: Request) returns (n: World)
    requires AtWork(w, session, j, request) && j in w.calls && w.calls[j] == AtClaim
    requires RowIs(w, Acceptance(w.config.scope, session), RowPending)
    ensures StepOf(contexts, w, Claim(j, Answered), n) && SameProcess(w, n)
    ensures RowIs(n, Acceptance(w.config.scope, session), RowRunning) && j in n.calls && n.calls[j].AtSubmit?
  {
    hide SavedWorld, Delivered, BeganWorld, CommittedWorld, StartFailedWorld, StartedTask, Remembering, Released, CancelledWorld, ReadBackWorld,
      OrphansFailed, InflightFailed, Retained, Lapsed, Active, Decides;
    n := ClaimedWorld(w, j, Answered);
    ClaimedParts(w, j, Answered);
  }

  lemma Submits(contexts: string -> SessionContext, w: World, j: nat) returns (n: World)
    requires j in w.calls && w.calls[j].AtSubmit?
    ensures StepOf(contexts, w, Submit(j, true), n) && SameProcess(w, n) && n.rows == w.rows
    ensures j in n.tasks && n.tasks[j].Queued?
  {
    n := w.(calls := w.calls - {j}, tasks := w.tasks[j := Queued(w.calls[j].generation)]);
  }

  lemma Starts(contexts: string -> SessionContext, w: World, session: string, j: nat, request: Request) returns (n: World)
    requires AtWork(w, session, j, request) && j in w.tasks && w.tasks[j].Queued?
    ensures StepOf(contexts, w, TaskStarts(j), n) && SameProcess(w, n) && n.rows == w.rows
    ensures j in n.tasks && n.tasks[j].Awaiting? && n.tasks[j].request == request
  {
    n := StartedTask(w, j);
    StartedParts(w, j);
  }

  lemma Replies(contexts: string -> SessionContext, w: World, session: string, j: nat, request: Request, d: Decision)
    returns (n: World)
    requires AtWork(w, session, j, request) && j in w.tasks && w.tasks[j].Awaiting? && w.tasks[j].request == request
    requires Decides(request, d) && d.accepted == Acceptance(w.config.scope, session)
    ensures StepOf(contexts, w, TaskReplies(j, d), n) && n.rows == w.rows && SavesDecision(d) in n.outbox
    ensures n.config == w.config && n.history.published == w.history.published + [j]
    ensures session in n.memory.sessions && n.memory.sessions[session].decision == Some(d)
  {
    hide Decides, Shown;
    var committed := CommittedWorld(w, j, d);
    CommittedParts(w, j, d);
    n := Released(committed, j).(tasks := w.tasks - {j});
  }

  lemma Lands(contexts: string -> SessionContext, w: World, id: Acceptance, d: Decision) returns (n: World)
    requires RowIs(w, id, RowRunning) && d.accepted == id && SavesDecision(d) in w.outbox
    ensures StepOf(contexts, w, Deliver(SavesDecision(d), false), n)
    ensures n.memory == w.memory && n.history.published == w.history.published
    ensures RowIs(n, id, StatusOf(d)) && n.rows[id].product == d.selected
  {
    hide SavedWorld, ClaimedWorld, BeganWorld, CommittedWorld, StartFailedWorld, StartedTask, Remembering, Released, CancelledWorld, ReadBackWorld,
      OrphansFailed, InflightFailed, Retained, Lapsed, Active, Decides;
    n := Delivered(w, SavesDecision(d)).(outbox := w.outbox - {SavesDecision(d)});
    DeliveredParts(w, SavesDecision(d));
  }

  function Steps(j: nat, d: Decision): seq<Action> {
    [Save(j, Answered), Claim(j, Answered), Submit(j, true), TaskStarts(j), TaskReplies(j, d),
     Deliver(SavesDecision(d), false)]
  }

  /** Six undisturbed steps take an active job to its published decision and the row that records it. */
  lemma UndisturbedJobCompletes(contexts: string -> SessionContext, w: World, session: string, j: nat, request: Request,
                                d: Decision) returns (worlds: seq<World>)
    requires AtWork(w, session, j, request) && j in w.calls && w.calls[j] == AtSave
    requires Acceptance(w.config.scope, session) !in w.rows && !SessionBusy(w.rows, session)
    requires Decides(request, d) && d.accepted == Acceptance(w.config.scope, session)
    ensures |worlds| == 7 && worlds[0] == w && StepsOf(contexts, worlds, Steps(j, d))
    ensures RowIs(worlds[6], d.accepted, StatusOf(d)) && worlds[6].rows[d.accepted].product == d.selected
    ensures session in worlds[6].memory.sessions && worlds[6].memory.sessions[session].decision == Some(d)
    ensures worlds[6].history.published == w.history.published + [j]
  {
    hide StepOf, SessionBusy, Decides, RowIs, StatusOf;
    var w1 := Saves(contexts, w, session, j, request);
    var w2 := Claims(contexts, w1, session, j, request);
    var w3 := Submits(contexts, w2, j);
    RowStays(w2, w3, d.accepted, RowRunning);
    var w4 := Starts(contexts, w3, session, j, request);
    RowStays(w3, w4, d.accepted, RowRunning);
    var w5 := Replies(contexts, w4, session, j, request, d);
    RowStays(w4, w5, d.accepted, RowRunning);
    var w6 := Lands(contexts, w5, d.accepted, d);
    worlds := [w, w1, w2, w3, w4, w5, w6];
  }

  lemma RowStays(a: World, b: World, id: Acceptance, status: RowStatus)
    requires RowIs(a, id, status) && b.rows == a.rows
    ensures RowIs(b, id, status)
  {
  }

  /** In every reachable state an active job is at work until its deadline. */
  lemma ActiveIsAtWork(contexts: string -> SessionContext, w: World, session: string, j: nat)
    requires Safe(contexts, w) && session in w.memory.sessions
    requires w.memory.sessions[session].activeJobId == Some(j) && w.clock < w.memory.sessions[session].expiresAt
    ensures j in w.memory.jobs && w.memory.jobs[j].request.Some? && AtWork(w, session, j, w.memory.jobs[j].request.value)
  {
    hide HistorySafe, ProtocolRows.TableSound;
    assert ProcessSafe(contexts, w);
    SessionInv(w.config, contexts, w.memory, session);
  }

  /**
   On the legacy window path the deterministic client's answer is a completed decision that a task may
   publish, so with it every undisturbed job ends in a completed row.
   */
  lemma StubDecides(ctx: SessionContext, b: Buffer, observations: seq<Frame>, settings: Settings, modelId: string,
                    request: Request, accepted: Acceptance) returns (d: Decision)
    requires Dispatches(ctx, b, observations, settings, modelId, request)
    requires request.source.None? && request.evidence.variant != B
    ensures Decides(request, d) && d.status == Completed && d.accepted == accepted && StatusOf(d) == RowCompleted
    ensures Recommend(request).Some? && d.selected == Some(Recommend(request).value.productId)
  {
    hide Dispatches, Admits, Recommend, Decision.Valid;
    var harmless: string -> bool := _ => false;
    StubPassesWithWindows(ctx, b, observations, settings, modelId, request, harmless);
    var o := Recommend(request).value;
    GatePassBuildsDecision(request, harmless, o, accepted);
    d := CompletedDecision(accepted, o, request.evidence.quality, request.evidence.variant);
  }
}
