/**
 What the protocol guarantees over every run, whatever the interleaving of completion, model replies,
 cancellation, expiry, cleanup, restarts and failing database calls.
 */
module ProtocolTheorems {
  import opened Common
  import opened Ingestion
  import opened Gate
  import opened Completion
  import opened SessionMemory
  import opened JobRows
  import opened Protocol
  import opened ProtocolMemory
  import opened ProtocolRows
  import opened ProtocolFacts
  import opened Provenance

  // ----- At most one dispatch per row -----

  /**
   Two dispatches never share a row: between one insertion of a decision request's row and its deletion
   by retention, the model is called at most once, and no job calls it twice.
   */
  lemma OneDispatchPerRow(contexts: string -> SessionContext, config: Config, worlds: seq<World>, actions: seq<Action>,
                          n: nat, i: nat, k: nat)
    requires RunOf(contexts, config, worlds, actions) && n < |worlds|
    requires i < k < |worlds[n].history.modelCalls|
    ensures var calls := worlds[n].history.modelCalls;
      && calls[i].jobId != calls[k].jobId
      && (calls[i].id != calls[k].id || calls[i].generation != calls[k].generation)
  {
    hide StepsOf, ContextValid, InitialWorld, ProcessSafe, TableSound, ClaimsHeld, DecisionsKnown, PublishedOnce;
    RunIsSafe(contexts, config, worlds, actions, n);
  }

  // ----- Pending sessions -----

  /**
   A pending session has a call or a task that will settle it, unless it is the very incarnation that an
   escaping completion left behind: its record has not changed since.
   */
  lemma PendingIsDriven(contexts: string -> SessionContext, config: Config, worlds: seq<World>, actions: seq<Action>,
                        n: nat, session: string)
    requires RunOf(contexts, config, worlds, actions) && n < |worlds|
    requires session in worlds[n].memory.sessions && worlds[n].memory.sessions[session].status == Pending
    ensures var w, job := worlds[n], worlds[n].memory.sessions[session].activeJobId;
      if job.Some? then
        (job.value in w.calls || job.value in w.tasks)
        && job.value in w.memory.jobs && w.memory.jobs[job.value].request.Some?
      else exists k: nat :: k < n && EscapedAt(worlds, actions, k, n, session)
  {
    hide StepsOf, ContextValid, InitialWorld, TableSound, HistorySafe, BufferInv, EscapedAt;
    RunIsSafe(contexts, config, worlds, actions, n);
    var w := worlds[n];
    assert SessionDriven(w.config, w.memory.sessions[session], w.calls, w.tasks, w.history.begun);
    assert JobInv(w.config, w.memory, session);
    if w.memory.sessions[session].activeJobId.None? {
      var k := StuckHasEscaped(contexts, config, worlds, actions, n, session);
    }
  }

  // ----- Orphan cleanup -----

  /**
   Orphan cleanup spares a running row claimed for a job that is still active with its deadline ahead:
   the row was claimed after the job began, and a deadline never exceeds the orphan age.
   */
  lemma OrphanCleanupSparesActiveJobs(contexts: string -> SessionContext, w: World, session: string, j: nat)
    requires Safe(contexts, w)
    requires session in w.memory.sessions && w.memory.sessions[session].activeJobId == Some(j)
    requires w.clock < w.memory.sessions[session].expiresAt
    requires var id := Acceptance(w.config.scope, session);
      id in w.rows && w.rows[id].status == RowRunning && Holds(w.history.claims, id, Generation(w.history, id), j)
    ensures var id := Acceptance(w.config.scope, session);
      var rows := OrphansFailed(w.rows, w.config.orphanSeconds, w.clock);
      id in rows && rows[id] == w.rows[id]
  {
    hide HistorySafe, MemoryInv;
    var id := Acceptance(w.config.scope, session);
    assert SessionDriven(w.config, w.memory.sessions[session], w.calls, w.tasks, w.history.begun);
    assert RowSound(id, w.rows[id], w.history.generations, w.history.claims, w.history.begun);
  }

  lemma OrphanCleanupSparesInRuns(contexts: string -> SessionContext, config: Config, worlds: seq<World>,
                                  actions: seq<Action>, n: nat, session: string, j: nat)
    requires RunOf(contexts, config, worlds, actions) && n < |actions| && actions[n] == CleanOrphans
    requires var w := worlds[n];
      session in w.memory.sessions && w.memory.sessions[session].activeJobId == Some(j)
      && w.clock < w.memory.sessions[session].expiresAt
    requires var w, id := worlds[n], Acceptance(worlds[n].config.scope, session);
      id in w.rows && w.rows[id].status == RowRunning && Holds(w.history.claims, id, Generation(w.history, id), j)
    ensures var id := Acceptance(worlds[n].config.scope, session);
      id in worlds[n + 1].rows && worlds[n + 1].rows[id] == worlds[n].rows[id]
  {
    hide ContextValid, InitialWorld, Safe, OrphansFailed, Generation, Holds, StepOf;
    RunIsSafe(contexts, config, worlds, actions, n);
    OrphanCleanupSparesActiveJobs(contexts, worlds[n], session, j);
    assert StepOf(contexts, worlds[n], actions[n], worlds[n + 1]);
    CleaningStep(contexts, worlds[n], worlds[n + 1]);
  }

  lemma CleaningStep(contexts: string -> SessionContext, w: World, n: World)
    requires StepOf(contexts, w, CleanOrphans, n)
    ensures n.rows == OrphansFailed(w.rows, w.config.orphanSeconds, w.clock)
  {
    hide Follows, OrphansFailed;
  }

  // ----- Completed rows -----

  /** The steps that may change what the memory shows. */
  predicate TouchesMemory(a: Action) {
    a.Append? || a.Begin? || a.CommitFailed? || a.TaskReplies? || a.CancelSession? || a.Sweep? || a.ReadBack?
  }

  lemma OtherStepsShow(contexts: string -> SessionContext, w: World, a: Action)
    requires Guard(w, a) && !TouchesMemory(a)
    ensures Apply(contexts, w, a).history.decided == w.history.decided
  {
    hide SameTable, StartFailedWorld, StartedTask, SavedWorld, ClaimedWorld, Delivered, Released, OrphansFailed,
      InflightFailed, Retained;
    match a {
      case Save(j, ending) => SavedParts(w, j, ending);
      case Claim(j, ending) => ClaimedParts(w, j, ending);
      case StartFailed(j) => StartFailedParts(w, j);
      case TaskStarts(j) => StartedParts(w, j);
      case TaskCancelled(j) => ReleasedHistory(w, j);
      case ClearJob(j) => ReleasedHistory(w, j);
      case Deliver(call, _) => DeliveredParts(w, call);
      case _ =>
    }
  }

  lemma MemoryStepsShow(contexts: string -> SessionContext, w: World, a: Action)
    requires Guard(w, a) && TouchesMemory(a)
    ensures var n := Apply(contexts, w, a); n.history.decided == w.history.decided + Shown(n.memory)
  {
    hide SameTable, BeganWorld, CommittedWorld, Remembering, CancelledWorld, ReadBackWorld, Released,
      SessionMemory.Committed, Cancelled, Lapsed, Shown, OrphanCalls, AnswerFor;
    match a {
      case Append(_, _, _, _, after) => RememberingParts(w, after, {});
      case Begin(session, _, _, jobId, result, after) => BeganParts(w, session, jobId, result, after);
      case CommitFailed(j) => CommittedParts(w, j, w.calls[j].decision);
      case TaskReplies(j, d) =>
        CommittedParts(w, j, d);
        ReleasedShows(CommittedWorld(w, j, d), j);
        ReleasedHistory(CommittedWorld(w, j, d), j);
      case CancelSession(session) => CancelledParts(w, session);
      case Sweep => RememberingParts(w, Lapsed(w.memory, w.clock), OrphanCalls(w.memory, w.clock));
      case ReadBack(session) => ReadBackParts(w, session);
    }
  }

  /** What a step adds to the remembered decisions is what the memory then shows. */
  lemma StepShows(contexts: string -> SessionContext, w: World, a: Action)
    requires Guard(w, a)
    ensures var n := Apply(contexts, w, a);
      n.history.decided == w.history.decided || n.history.decided == w.history.decided + Shown(n.memory)
  {
    hide Apply, Guard, Shown;
    if TouchesMemory(a) {
      MemoryStepsShow(contexts, w, a);
    } else {
      OtherStepsShow(contexts, w, a);
    }
  }

  lemma ReleasedHistory(w: World, j: nat)
    ensures Released(w, j).history == w.history
  {
  }

  /** Every remembered decision was shown by the memory of some world of the run. */
  lemma {:induction false} DecidedWasShown(contexts: string -> SessionContext, config: Config, worlds: seq<World>,
                                           actions: seq<Action>, n: nat, d: Decision) returns (k: nat)
    requires RunOf(contexts, config, worlds, actions) && n < |worlds| && d in worlds[n].history.decided
    ensures k <= n && d in Shown(worlds[k].memory)
  {
    hide ContextValid, InitialWorld, Follows, Apply, Guard, Shown;
    if n == 0 {
      NothingDecided(config, worlds[0]);
    } else {
      assert StepOf(contexts, worlds[n - 1], actions[n - 1], worlds[n]);
      StepShows(contexts, worlds[n - 1], actions[n - 1]);
      if d in worlds[n - 1].history.decided {
        k := DecidedWasShown(contexts, config, worlds, actions, n - 1, d);
      } else {
        k := n;
      }
    }
  }

  lemma NothingDecided(config: Config, w: World)
    requires w == InitialWorld(config, w.clock)
    ensures w.history.decided == {}
  {
  }

  /**
   A row says "completed" only with a decision that was that session's decision in the memory of an
   earlier world of the run.
   */
  lemma CompletedRowWasDecided(contexts: string -> SessionContext, config: Config, worlds: seq<World>,
                               actions: seq<Action>, n: nat, id: Acceptance) returns (k: nat, d: Decision)
    requires RunOf(contexts, config, worlds, actions) && n < |worlds|
    requires id in worlds[n].rows && worlds[n].rows[id].status == RowCompleted
    ensures k <= n && id.sessionId in worlds[k].memory.sessions && worlds[k].config.scope == id.scope
    ensures worlds[k].memory.sessions[id.sessionId].decision == Some(d)
    ensures d.Valid() && d.status == Completed && d.accepted == id
    ensures worlds[n].rows[id].product == d.selected && worlds[n].rows[id].reasonCodes == d.reasonCodes
    ensures worlds[n].rows[id].tendency == d.tendency && worlds[n].rows[id].reason == Some(GroundedProductMatch)
  {
    hide StepsOf, ContextValid, InitialWorld, Safe, Shown;
    RunIsSafe(contexts, config, worlds, actions, n);
    d := RowShowsDecision(contexts, worlds[n], id);
    k := DecidedWasShown(contexts, config, worlds, actions, n, d);
    RunIsSafe(contexts, config, worlds, actions, k);
    ShownBySession(contexts, worlds[k], d);
  }

  lemma RowShowsDecision(contexts: string -> SessionContext, w: World, id: Acceptance) returns (d: Decision)
    requires Safe(contexts, w) && id in w.rows && w.rows[id].status == RowCompleted
    ensures d in w.history.decided && d.accepted == id && d.status == Completed
    ensures w.rows[id] == DecidedRow(id.sessionId, d, w.rows[id].updatedAt, w.rows[id].lockVersion)
  {
    hide ProcessSafe, TableSound, ClaimsHeld, DispatchesBacked, PublishedOnce, Shown;
    assert RowDecided(id, w.rows[id], w.history.decided);
    d :| d in w.history.decided && d.accepted == id
         && w.rows[id] == DecidedRow(id.sessionId, d, w.rows[id].updatedAt, w.rows[id].lockVersion);
  }

  /** A shown decision belongs to the session that shows it. */
  lemma ShownBySession(contexts: string -> SessionContext, w: World, d: Decision)
    requires Safe(contexts, w) && d in Shown(w.memory)
    ensures d.accepted.scope == w.config.scope && d.accepted.sessionId in w.memory.sessions && d.Valid()
    ensures w.memory.sessions[d.accepted.sessionId].decision == Some(d)
  {
    hide TableSound, HistorySafe, Driven, JobInv, BufferInv, Decision.Valid;
    var s :| s in w.memory.sessions && w.memory.sessions[s].decision == Some(d);
    assert RecordInv(w.config, contexts(s), s, w.memory.sessions[s]);
  }

  // ----- Stale jobs -----

  lemma CommitKeepsInactive(contexts: string -> SessionContext, w: World, j: nat, d: Decision, k: nat)
    requires Safe(contexts, w) && j in w.memory.jobs && d.Valid() && d.accepted == w.memory.jobs[j].accepted
    requires !Active(w.memory, k)
    ensures var n := CommittedWorld(w, j, d);
      !Active(n.memory, k) && (k in n.history.published ==> k in w.history.published)
  {
    hide TableSound, HistorySafe, ProcessSafe, Active, Quiet, CommittedWorld, SessionMemory.Committed, Decision.Valid;
    CommitProcess(contexts, w, j, d);
    CommittedParts(w, j, d);
    QuietInactive(w.memory, CommittedWorld(w, j, d).memory, k);
    if SessionMemory.Committed(w.config, w.memory, w.memory.jobs[j].sessionId, j, d, w.clock).1 {
      PublisherWasActive(w.config, w.memory, w.memory.jobs[j].sessionId, j, d, w.clock);
    }
  }

  lemma ReleaseKeepsInactive(w: World, j: nat, k: nat)
    requires !Active(w.memory, k)
    ensures !Active(Released(w, j).memory, k) && Released(w, j).history == w.history
  {
  }

  lemma QuietKeepsInactive(w: World, m: Memory, left: set<DbCall>, k: nat)
    requires Quiet(w.memory, m) && !Active(w.memory, k)
    ensures !Active(Remembering(w, m, left).memory, k)
    ensures Remembering(w, m, left).history.published == w.history.published
  {
    hide Active, Quiet, Remembering, Shown;
    RememberingParts(w, m, left);
    QuietInactive(w.memory, m, k);
  }

  lemma BeginKeepsInactive(contexts: string -> SessionContext, w: World, session: string, modelId: string, flag: bool,
                           jobId: nat, result: BeginResult, after: Memory, k: nat)
    requires Safe(contexts, w) && jobId !in w.history.begun && ContextValid(contexts(session))
    requires Begins(w.config, contexts(session).(completedV1 := flag), w.memory, session, modelId, jobId, w.clock, after,
                    result)
    requires !Active(w.memory, k) && k in w.history.begun
    ensures var n := BeganWorld(w, session, jobId, result, after);
      !Active(n.memory, k) && n.history.published == w.history.published
  {
    hide TableSound, HistorySafe, ProcessSafe, Active, BeganWorld, Begins, ContextValid, BeginOutcome;
    BeginProcess(contexts, w, session, modelId, flag, jobId, result, after);
    BeganParts(w, session, jobId, result, after);
    BeginActive(w.config, w.memory, session, jobId, w.clock, result, after, k);
  }

  /** A job that is no longer active never becomes active again, and never publishes. */
  lemma StaleStaysStale(contexts: string -> SessionContext, w: World, a: Action, n: World, k: nat)
    requires (forall s :: ContextValid(contexts(s))) && Safe(contexts, w) && StepOf(contexts, w, a, n)
    requires k in w.history.begun && !Active(w.memory, k)
    ensures k in n.history.begun && !Active(n.memory, k)
    ensures k in n.history.published ==> k in w.history.published
  {
    hide Active, Quiet, Remembering, Shown, BeganWorld, CommittedWorld, StartFailedWorld, StartedTask, CancelledWorld,
      ReadBackWorld, SavedWorld, ClaimedWorld, Delivered, Released, Begins, Appends, TableSound, HistorySafe, ProcessSafe,
      ContextValid, Decides, OrphanCalls, Lapsed, OrphansFailed, InflightFailed, Retained, JobsKnown;
    StepBegun(contexts, w, a);
    match a {
      case Append(session, batch, flag, ack, after) =>
        AppendProcess(contexts, w, session, batch, flag, ack, after, {});
        QuietKeepsInactive(w, after, {}, k);
      case Begin(session, modelId, flag, jobId, result, after) =>
        BeginKeepsInactive(contexts, w, session, modelId, flag, jobId, result, after, k);
      case Save(j, ending) => SavedParts(w, j, ending);
      case Claim(j, ending) => ClaimedParts(w, j, ending);
      case StartFailed(j) => StartFailedParts(w, j);
      case CommitFailed(j) =>
        FailureDecision(w, j);
        CommitKeepsInactive(contexts, w, j, w.calls[j].decision, k);
      case TaskStarts(j) => StartedParts(w, j);
      case TaskReplies(j, d) =>
        DecidesValid(w.tasks[j].request, d);
        CommitKeepsInactive(contexts, w, j, d, k);
        ReleaseKeepsInactive(CommittedWorld(w, j, d), j, k);
      case TaskCancelled(j) => ReleaseKeepsInactive(w, j, k);
      case ClearJob(j) => ReleaseKeepsInactive(w, j, k);
      case CancelSession(session) => CancelKeepsInactive(w, session, k);
      case Sweep =>
        LapseQuiet(w.memory, w.clock);
        QuietKeepsInactive(w, Lapsed(w.memory, w.clock), OrphanCalls(w.memory, w.clock), k);
      case ReadBack(session) => ReadKeepsInactive(w, session, k);
      case Deliver(call, _) => DeliveredParts(w, call);
      case Restart(_, _) => EmptyInactive(k);
      case _ =>
    }
  }

  lemma EmptyInactive(k: nat)
    ensures !Active(EmptyMemory, k)
  {
  }

  lemma FailureDecision(w: World, j: nat)
    requires HistorySafe(w) && j in w.calls && w.calls[j].AtFailureCommit?
    ensures j in w.memory.jobs && w.calls[j].decision.Valid()
    ensures w.calls[j].decision.accepted == w.memory.jobs[j].accepted
  {
    hide ClaimsHeld, DispatchesBacked, PublishedOnce, Shown, RowDecided, Decision.Valid;
  }

  lemma CancelKeepsInactive(w: World, session: string, k: nat)
    requires !Active(w.memory, k)
    ensures !Active(CancelledWorld(w, session).memory, k)
    ensures CancelledWorld(w, session).history.published == w.history.published
  {
    hide Active, Quiet, Gone, CancelledWorld;
    CancelQuiet(w.memory, session);
    CancelledParts(w, session);
    QuietInactive(w.memory, Gone(w.memory, session), k);
  }

  lemma ReadKeepsInactive(w: World, session: string, k: nat)
    requires !Active(w.memory, k)
    ensures !Active(ReadBackWorld(w, session).memory, k)
    ensures ReadBackWorld(w, session).history.published == w.history.published
  {
    hide Active, ReadBackWorld;
    ReadBackParts(w, session);
  }

  /** Jobs stay on record for ever. */
  lemma StepBegun(contexts: string -> SessionContext, w: World, a: Action)
    requires Guard(w, a)
    ensures forall k :: k in w.history.begun ==> k in Apply(contexts, w, a).history.begun
  {
    hide SavedWorld, ClaimedWorld, Delivered, BeganWorld, CommittedWorld, StartFailedWorld, StartedTask, Remembering,
      Released, OrphansFailed, InflightFailed, Retained, CancelledWorld, ReadBackWorld;
    if !TouchesRows(a) {
      TableUntouched(contexts, w, a);
    } else if a.Save? {
      SavedParts(w, a.jobId, a.ending);
    } else if a.Claim? {
      ClaimedParts(w, a.jobId, a.ending);
    } else if a.Deliver? {
      DeliveredParts(w, a.call);
    }
  }

  /** Over a run: once stale, a job publishes nothing more. */
  lemma {:induction false} StaleNeverPublishes(contexts: string -> SessionContext, config: Config, worlds: seq<World>,
                                               actions: seq<Action>, i: nat, n: nat, k: nat)
    requires RunOf(contexts, config, worlds, actions) && i <= n < |worlds|
    requires k in worlds[i].history.begun && !Active(worlds[i].memory, k)
    ensures k in worlds[n].history.begun && !Active(worlds[n].memory, k)
    ensures k in worlds[n].history.published ==> k in worlds[i].history.published
    decreases n - i
  {
    hide Active, StepOf, Safe, ContextValid, InitialWorld;
    if i < n {
      StaleNeverPublishes(contexts, config, worlds, actions, i, n - 1, k);
      RunIsSafe(contexts, config, worlds, actions, n - 1);
      assert StepOf(contexts, worlds[n - 1], actions[n - 1], worlds[n]);
      StaleStaysStale(contexts, worlds[n - 1], actions[n - 1], worlds[n], k);
    }
  }

  /** Cancelling a session retires its job on the spot. */
  lemma CancelRetires(contexts: string -> SessionContext, w: World, session: string, k: nat)
    requires Safe(contexts, w) && session in w.memory.sessions && w.memory.sessions[session].activeJobId == Some(k)
    ensures !Active(CancelledWorld(w, session).memory, k)
  {
    hide TableSound, HistorySafe, Driven, RecordInv;
    var m := CancelledWorld(w, session).memory;
    assert JobInv(w.config, w.memory, session);
    forall s | s in m.sessions ensures m.sessions[s].activeJobId != Some(k) {
      assert JobInv(w.config, w.memory, s);
    }
  }

  /** A job publishes at most once, and only while it is active: afterwards it is retired. */
  lemma PublishedAtMostOnce(contexts: string -> SessionContext, config: Config, worlds: seq<World>, actions: seq<Action>,
                            n: nat)
    requires RunOf(contexts, config, worlds, actions) && n < |worlds|
    ensures var published := worlds[n].history.published;
      && (forall i, k :: 0 <= i < k < |published| ==> published[i] != published[k])
      && (forall i :: 0 <= i < |published| ==> !Active(worlds[n].memory, published[i]))
  {
    hide StepsOf, ContextValid, InitialWorld, ProcessSafe, TableSound, ClaimsHeld, DecisionsKnown, DispatchesBacked, Active;
    RunIsSafe(contexts, config, worlds, actions, n);
  }
}
