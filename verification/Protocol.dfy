/**
 The recommendation protocol as a step relation: session memory, the job's call and task, and the durable
 row, interleaved with cancellation, expiry, orphan cleanup, retention, restart and failing database
 calls. One clock serves memory and database. Every lock-held block is a step of its own: the expiry sweep,
 the block of the call that made it, and the clearing of a job whose session is gone.
 */
module Protocol {
  import opened Common
  import opened Ingestion
  import opened Gate
  import opened Completion
  import opened SessionMemory
  import opened JobRows

  // ----- State -----

  /** Where a `complete` call that owns a job stands. */
  datatype Call = AtSave | AtClaim | AtSubmit(generation: nat) | Failing | AtFailureCommit(decision: Decision)

  /** Where a dispatched `run_completion` stands; a finished one is gone. */
  datatype Task = Queued(generation: nat) | Awaiting(generation: nat, request: Request)

  /** Database calls that were decided upon, best effort: each may run, run late, run and raise, or be lost. */
  datatype DbCall =
    | SavesDecision(decision: Decision)
    | FailsJob(id: Acceptance, failure: FailureCode)
    | MarksCancelled(id: Acceptance)

  /** One model dispatch: the row generation whose claim led to it, and the job. */
  datatype ModelCall = ModelCall(id: Acceptance, generation: nat, jobId: nat)

  /** What is remembered for the theorems; no step reads it. */
  datatype History = History(
    begun: map<nat, real>,
    generations: map<Acceptance, nat>,
    claims: map<(Acceptance, nat), nat>,
    decided: set<Decision>,
    modelCalls: seq<ModelCall>,
    published: seq<nat>)

  datatype World = World(config: Config, clock: real, memory: Memory, calls: map<nat, Call>, tasks: map<nat, Task>,
                         outbox: set<DbCall>, rows: Rows, history: History)

  /** How a database call ended: its effect may have happened although it raised. */
  datatype Ending = Answered | RaisedBefore | RaisedAfter

  datatype Action =
    | Tick(seconds: real)
    | Append(session: string, batch: Batch, completedV1: bool, ack: Result<AckStatus, ErrorCode>, after: Memory)
    | Begin(session: string, modelId: string, completedV1: bool, jobId: nat, result: BeginResult, after: Memory)
    | Save(jobId: nat, ending: Ending)
    | Claim(jobId: nat, ending: Ending)
    | Submit(jobId: nat, accepted: bool)
    | StartFailed(jobId: nat)
    | CommitFailed(jobId: nat)
    | TaskStarts(jobId: nat)
    | TaskReplies(jobId: nat, decision: Decision)
    | TaskCancelled(jobId: nat)
    | ClearJob(jobId: nat)
    | CancelSession(session: string)
    | Sweep
    | ReadBack(session: string)
    | Deliver(call: DbCall, kept: bool)
    | Lose(call: DbCall)
    | CleanOrphans
    | CleanRetention
    | CloseInflight
    | Restart(scope: nat, lost: set<DbCall>)

  function OrphanCalls(m: Memory, now: real): set<DbCall> {
    set id | id in Orphans(m, now) :: FailsJob(id, OrphanCleanup)
  }

  /** The decisions that sessions of this memory currently show. */
  function Shown(m: Memory): set<Decision> {
    set s | s in m.sessions && m.sessions[s].decision.Some? :: m.sessions[s].decision.value
  }

  /** A step of the memory: what it now shows is remembered, and it may leave database calls behind. */
  function Remembering(w: World, m: Memory, left: set<DbCall>): World {
    w.(memory := m, outbox := w.outbox + left, history := w.history.(decided := w.history.decided + Shown(m)))
  }

  function BeganWorld(w: World, session: string, jobId: nat, result: BeginResult, after: Memory): World {
    var next := Remembering(w, after, {});
    match result
    case Started(_, _) =>
      next.(calls := w.calls[jobId := AtSave], history := next.history.(begun := w.history.begun[jobId := w.clock]))
    case _ => next
  }

  function Owner(w: World, jobId: nat): Acceptance
    requires jobId in w.memory.jobs
  {
    w.memory.jobs[jobId].accepted
  }

  function Generation(h: History, id: Acceptance): nat {
    if id in h.generations then h.generations[id] else 0
  }

  /** The table after a statement; a new row opens a new generation of its id. */
  function Tabled(w: World, rows: Rows, id: Acceptance): World {
    if id in rows && id !in w.rows then
      w.(rows := rows, history := w.history.(generations := w.history.generations[id := Generation(w.history, id) + 1]))
    else w.(rows := rows)
  }

  function SavedWorld(w: World, jobId: nat, ending: Ending): World
    requires jobId in w.memory.jobs
  {
    var id := Owner(w, jobId);
    var (rows, ok) := SavedPending(w.rows, id, id.sessionId, w.clock);
    var next := if ending == RaisedBefore then w else Tabled(w, rows, id);
    next.(calls := w.calls[jobId := if ending == Answered && ok then AtClaim else Failing])
  }

  function ClaimedWorld(w: World, jobId: nat, ending: Ending): World
    requires jobId in w.memory.jobs
  {
    var id := Owner(w, jobId);
    var (rows, ok) := Claimed(w.rows, id, w.clock);
    var generation := Generation(w.history, id);
    var next := if ending == RaisedBefore || !ok then w
                else w.(rows := rows, history := w.history.(claims := w.history.claims[(id, generation) := jobId]));
    next.(calls := w.calls[jobId := if ending == Answered && ok then AtSubmit(generation) else Failing])
  }

  function StartFailedWorld(w: World, jobId: nat): World
    requires jobId in w.memory.jobs
  {
    var job := w.memory.jobs[jobId];
    if job.request.None? then w.(calls := w.calls - {jobId})
    else
      var e := job.request.value.evidence;
      var d := EmptyDecision(job.accepted, DecisionStatus.Failed, ModelUnavailable, e.quality, e.variant);
      w.(calls := w.calls[jobId := AtFailureCommit(d)], outbox := w.outbox + {FailsJob(job.accepted, JobStartFailed)})
  }

  /** A terminal commit; a published decision is handed to the database, best effort. */
  function CommittedWorld(w: World, jobId: nat, d: Decision): World
    requires jobId in w.memory.jobs
  {
    var (m, saved) := SessionMemory.Committed(w.config, w.memory, w.memory.jobs[jobId].sessionId, jobId, d, w.clock);
    var next := Remembering(w, m, if saved then {SavesDecision(d)} else {});
    if saved then next.(history := next.history.(published := w.history.published + [jobId])) else next
  }

  function Released(w: World, jobId: nat): World {
    w.(memory := w.memory.(jobs := Cleared(w.memory.jobs, Some(jobId))))
  }

  function StartedTask(w: World, jobId: nat): World
    requires jobId in w.memory.jobs && jobId in w.tasks && w.tasks[jobId].Queued?
  {
    var request := w.memory.jobs[jobId].request;
    if request.None? then w.(tasks := w.tasks - {jobId})
    else
      var generation := w.tasks[jobId].generation;
      w.(tasks := w.tasks[jobId := Awaiting(generation, request.value)],
         history := w.history.(modelCalls := w.history.modelCalls + [ModelCall(Owner(w, jobId), generation, jobId)]))
  }

  function CancelledWorld(w: World, session: string): World {
    var id := Cancelled(w.memory, session).1;
    Remembering(w, Gone(w.memory, session), if id.Some? then {MarksCancelled(id.value)} else {})
  }

  /** A `complete` call that owns no job reads the session back and saves a decision it finds. */
  function ReadBackWorld(w: World, session: string): World {
    var answer := AnswerFor(w.memory, session);
    Remembering(w, w.memory, if answer.Decided? then {SavesDecision(answer.decision)} else {})
  }

  function Delivered(w: World, call: DbCall): World {
    match call
    case SavesDecision(d) => Tabled(w, SavedDecision(w.rows, d.accepted.sessionId, d, w.clock).0, d.accepted)
    case FailsJob(id, failure) => w.(rows := FailedJob(w.rows, id, failure, w.clock).0)
    case MarksCancelled(id) => w.(rows := MarkedCancelled(w.rows, id, w.clock).0)
  }

  /** What a reply to `request` can be turned into: a gated decision or a sanitised failure. */
  ghost predicate Decides(request: Request, d: Decision) {
    && d.Valid() && d.status != InsufficientData
    && (d.status == Completed ==> exists diagnosis, o ::
      Admits(request, diagnosis, o)
      && d == CompletedDecision(d.accepted, o, request.evidence.quality, request.evidence.variant))
  }

  predicate Active(m: Memory, jobId: nat) {
    exists s :: s in m.sessions && m.sessions[s].activeJobId == Some(jobId)
  }

  // ----- Steps -----

  /** Which steps can be taken at all. */
  predicate Guard(w: World, a: Action) {
    match a
    case Tick(seconds) => seconds >= 0.0
    case Append(_, batch, _, _, _) => batch.Valid()
    case Begin(_, _, _, jobId, _, _) => jobId !in w.history.begun
    case Save(j, _) => j in w.memory.jobs && j in w.calls && w.calls[j] == AtSave
    case Claim(j, _) => j in w.memory.jobs && j in w.calls && w.calls[j] == AtClaim
    case Submit(j, _) => j in w.calls && w.calls[j].AtSubmit?
    case StartFailed(j) => j in w.memory.jobs && j in w.calls && w.calls[j] == Failing
    case CommitFailed(j) => j in w.memory.jobs && j in w.calls && w.calls[j].AtFailureCommit?
    case TaskStarts(j) => j in w.memory.jobs && j in w.tasks && w.tasks[j].Queued?
    case TaskReplies(j, d) => j in w.memory.jobs && j in w.tasks && w.tasks[j].Awaiting? && d.accepted == Owner(w, j)
    case TaskCancelled(j) => j in w.tasks && !Active(w.memory, j)
    case ClearJob(j) => j in w.memory.jobs && !Active(w.memory, j)
    case Deliver(call, _) => call in w.outbox
    case Restart(scope, _) => scope != w.config.scope
    case _ => true
  }

  /** The steps of one job's call or task. */
  predicate OfJob(a: Action) {
    a.Save? || a.Claim? || a.Submit? || a.StartFailed? || a.CommitFailed? || a.TaskStarts? || a.TaskReplies?
    || a.TaskCancelled? || a.ClearJob?
  }

  /** What the store's methods answered. */
  ghost predicate Follows(contexts: string -> SessionContext, w: World, a: Action) {
    hide Appends, Begins;
    match a
    case Append(session, batch, flag, ack, after) =>
      batch.Valid() && Appends(w.config, contexts(session).(completedV1 := flag), w.memory, session, batch, w.clock, after, ack)
    case Begin(session, modelId, flag, jobId, result, after) =>
      Begins(w.config, contexts(session).(completedV1 := flag), w.memory, session, modelId, jobId, w.clock, after, result)
    case TaskReplies(j, d) => j in w.tasks && w.tasks[j].Awaiting? && Decides(w.tasks[j].request, d)
    case _ => true
  }

  function Apply(contexts: string -> SessionContext, w: World, a: Action): World
    requires Guard(w, a)
  {
    match a
    case Tick(seconds) => w.(clock := w.clock + seconds)
    case Append(_, _, _, _, after) => Remembering(w, after, {})
    case Begin(session, _, _, jobId, result, after) => BeganWorld(w, session, jobId, result, after)
    case Save(j, ending) => SavedWorld(w, j, ending)
    case Claim(j, ending) => ClaimedWorld(w, j, ending)
    case Submit(j, accepted) =>
      if accepted then w.(calls := w.calls - {j}, tasks := w.tasks[j := Queued(w.calls[j].generation)])
      else w.(calls := w.calls[j := Failing])
    case StartFailed(j) => StartFailedWorld(w, j)
    case CommitFailed(j) => CommittedWorld(w, j, w.calls[j].decision).(calls := w.calls - {j})
    case TaskStarts(j) => StartedTask(w, j)
    case TaskReplies(j, d) => Released(CommittedWorld(w, j, d), j).(tasks := w.tasks - {j})
    case TaskCancelled(j) => Released(w, j).(tasks := w.tasks - {j})
    case ClearJob(j) => Released(w, j)
    case CancelSession(session) => CancelledWorld(w, session)
    case Sweep => Remembering(w, Lapsed(w.memory, w.clock), OrphanCalls(w.memory, w.clock))
    case ReadBack(session) => ReadBackWorld(w, session)
    case Deliver(call, kept) => Delivered(w, call).(outbox := if kept then w.outbox else w.outbox - {call})
    case Lose(call) => w.(outbox := w.outbox - {call})
    case CleanOrphans => w.(rows := OrphansFailed(w.rows, w.config.orphanSeconds, w.clock))
    case CleanRetention => w.(rows := Retained(w.rows, w.config.retentionSeconds, w.clock))
    case CloseInflight => w.(rows := InflightFailed(w.rows, w.clock))
    case Restart(scope, lost) =>
      w.(config := w.config.(scope := scope), memory := EmptyMemory, calls := map[], tasks := map[],
         outbox := w.outbox - lost)
  }

  function InitialWorld(config: Config, clock: real): World {
    World(config, clock, EmptyMemory, map[], map[], {}, map[], History(map[], map[], map[], {}, [], []))
  }

  ghost predicate StepOf(contexts: string -> SessionContext, w: World, a: Action, next: World) {
    hide Follows;
    Guard(w, a) && Follows(contexts, w, a) && next == Apply(contexts, w, a)
  }

  ghost predicate StepsOf(contexts: string -> SessionContext, worlds: seq<World>, actions: seq<Action>)
    requires |worlds| == |actions| + 1
  {
    hide StepOf;
    forall i {:trigger actions[i]} :: 0 <= i < |actions| ==> StepOf(contexts, worlds[i], actions[i], worlds[i + 1])
  }

  /** A run of the whole system: `worlds[i + 1]` follows from `worlds[i]` by `actions[i]`. */
  ghost predicate RunOf(contexts: string -> SessionContext, config: Config, worlds: seq<World>, actions: seq<Action>) {
    hide StepsOf, ContextValid, InitialWorld;
    && |worlds| == |actions| + 1 && config.Valid() && (forall s :: ContextValid(contexts(s)))
    && worlds[0] == InitialWorld(config, worlds[0].clock) && StepsOf(contexts, worlds, actions)
  }

  // ----- What each composite update touches -----

  /** Everything but the memory and what goes with it. */
  predicate SameTable(a: World, b: World) {
    && b.config == a.config && b.clock == a.clock && b.rows == a.rows
    && b.history.generations == a.history.generations && b.history.claims == a.history.claims
  }

  lemma BeganParts(w: World, session: string, jobId: nat, result: BeginResult, after: Memory)
    ensures var n, h := BeganWorld(w, session, jobId, result, after), w.history;
      && SameTable(w, n) && n.memory == after && n.tasks == w.tasks
      && n.calls == (if result.Started? then w.calls[jobId := AtSave] else w.calls)
      && n.outbox == w.outbox
      && n.history.begun == (if result.Started? then h.begun[jobId := w.clock] else h.begun)
      && n.history.decided == h.decided + Shown(after)
      && n.history.modelCalls == h.modelCalls && n.history.published == h.published
  {
    hide Shown;
    assert w.outbox + {} == w.outbox;
  }

  lemma StartFailedParts(w: World, jobId: nat)
    requires jobId in w.memory.jobs
    ensures var n, job := StartFailedWorld(w, jobId), w.memory.jobs[jobId];
      && SameTable(w, n) && n.memory == w.memory && n.tasks == w.tasks && n.history == w.history
      && n.calls.Keys == (if job.request.None? then w.calls.Keys - {jobId} else w.calls.Keys + {jobId})
      && (forall j :: j in n.calls && j != jobId ==> j in w.calls && n.calls[j] == w.calls[j])
      && (job.request.Some? ==>
        && n.calls[jobId].AtFailureCommit? && n.calls[jobId].decision.Valid()
        && n.calls[jobId].decision.accepted == job.accepted && n.calls[jobId].decision.status == DecisionStatus.Failed)
      && w.outbox <= n.outbox && (forall call :: call in n.outbox && call !in w.outbox ==> call.FailsJob?)
  {
  }

  lemma CommittedParts(w: World, jobId: nat, d: Decision)
    requires jobId in w.memory.jobs
    ensures var n, h := CommittedWorld(w, jobId, d), w.history;
      var (m, saved) := SessionMemory.Committed(w.config, w.memory, w.memory.jobs[jobId].sessionId, jobId, d, w.clock);
      && SameTable(w, n) && n.memory == m && n.calls == w.calls && n.tasks == w.tasks
      && n.outbox == w.outbox + (if saved then {SavesDecision(d)} else {})
      && n.history == h.(decided := h.decided + Shown(m),
                         published := if saved then h.published + [jobId] else h.published)
  {
    hide Shown, SessionMemory.Committed;
  }

  lemma StartedParts(w: World, jobId: nat)
    requires jobId in w.memory.jobs && jobId in w.tasks && w.tasks[jobId].Queued?
    ensures var n, h, job := StartedTask(w, jobId), w.history, w.memory.jobs[jobId];
      var generation := w.tasks[jobId].generation;
      && SameTable(w, n) && n.memory == w.memory && n.calls == w.calls && n.outbox == w.outbox
      && n.tasks == (if job.request.None? then w.tasks - {jobId}
                     else w.tasks[jobId := Awaiting(generation, job.request.value)])
      && n.history == h.(modelCalls := if job.request.None? then h.modelCalls
                                       else h.modelCalls + [ModelCall(job.accepted, generation, jobId)])
  {
  }

  lemma RememberingParts(w: World, m: Memory, left: set<DbCall>)
    ensures var n, h := Remembering(w, m, left), w.history;
      && SameTable(w, n) && n.memory == m && n.calls == w.calls && n.tasks == w.tasks && n.outbox == w.outbox + left
      && n.history == h.(decided := h.decided + Shown(m))
  {
    hide Shown;
  }

  lemma CancelledParts(w: World, session: string)
    ensures var n, h, m := CancelledWorld(w, session), w.history, Gone(w.memory, session);
      && SameTable(w, n) && n.memory == m && n.calls == w.calls && n.tasks == w.tasks
      && w.outbox <= n.outbox && (forall call :: call in n.outbox && call !in w.outbox ==> call.MarksCancelled?)
      && n.history == h.(decided := h.decided + Shown(m))
  {
    hide Shown, Gone, Cancelled;
  }

  lemma ReadBackParts(w: World, session: string)
    ensures var n, h, m := ReadBackWorld(w, session), w.history, w.memory;
      && SameTable(w, n) && n.memory == m && n.calls == w.calls && n.tasks == w.tasks && w.outbox <= n.outbox
      && (forall call :: call in n.outbox && call.SavesDecision? ==> call in w.outbox || call.decision in Shown(m))
      && n.history == h.(decided := h.decided + Shown(m))
  {
  }

  lemma SavedParts(w: World, jobId: nat, ending: Ending)
    requires jobId in w.memory.jobs
    ensures var n, id := SavedWorld(w, jobId, ending), Owner(w, jobId);
      && n.config == w.config && n.clock == w.clock && n.memory == w.memory && n.tasks == w.tasks && n.outbox == w.outbox
      && (n.calls == w.calls[jobId := AtClaim] || n.calls == w.calls[jobId := Failing])
      && (n.rows == w.rows || n.rows == SavedPending(w.rows, id, id.sessionId, w.clock).0)
      && n.history == w.history.(generations := n.history.generations)
  {
    hide SavedPending;
  }

  lemma ClaimedParts(w: World, jobId: nat, ending: Ending)
    requires jobId in w.memory.jobs
    ensures var n, id := ClaimedWorld(w, jobId, ending), Owner(w, jobId);
      && n.config == w.config && n.clock == w.clock && n.memory == w.memory && n.tasks == w.tasks && n.outbox == w.outbox
      && (n.rows == w.rows || n.rows == Claimed(w.rows, id, w.clock).0)
      && (n.calls == w.calls[jobId := Failing]
          || (exists g: nat :: n.calls == w.calls[jobId := AtSubmit(g)]
                          && (id, g) in n.history.claims && n.history.claims[(id, g)] == jobId))
      && n.history == w.history.(claims := n.history.claims)
  {
    hide Claimed;
    var n, id := ClaimedWorld(w, jobId, ending), Owner(w, jobId);
    if ending == Answered && Claimed(w.rows, id, w.clock).1 {
      assert n.calls == w.calls[jobId := AtSubmit(Generation(w.history, id))];
    }
  }

  lemma DeliveredParts(w: World, call: DbCall)
    ensures var n := Delivered(w, call);
      && n.config == w.config && n.clock == w.clock && n.memory == w.memory && n.calls == w.calls && n.tasks == w.tasks
      && n.outbox == w.outbox && n.history == w.history.(generations := n.history.generations)
      && n.rows == (match call
                    case SavesDecision(d) => SavedDecision(w.rows, d.accepted.sessionId, d, w.clock).0
                    case FailsJob(id, failure) => FailedJob(w.rows, id, failure, w.clock).0
                    case MarksCancelled(id) => MarkedCancelled(w.rows, id, w.clock).0)
  {
    hide SavedDecision, FailedJob, MarkedCancelled;
  }
}
