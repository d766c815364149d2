/**
 From the durable and in-memory protocol back to the evidence: which completions escape, and that every
 decision published through a job is grounded in frames that its session had accepted.
 */
module Traceability {
  import opened Common
  import opened Observations
  import opened Ingestion
  import opened SourceEvidence
  import opened Snapshots
  import opened Gate
  import opened Completion
  import opened Grounding
  import opened CompletionFacts
  import opened SessionMemory
  import opened JobRows
  import opened Protocol
  import opened ProtocolMemory
  import opened ProtocolRows
  import opened ProtocolFacts
  import opened Provenance
  import C = Confluence

  // ----- Completions that escape -----

  /** A collecting session is about to be completed from the frames in `observations`. */
  ghost predicate Completing(config: Config, contexts: string -> SessionContext, ctx: SessionContext, before: Memory,
                             session: string, now: real, observations: seq<Frame>)
  {
    && MemoryInv(config, contexts, before) && SameSession(ctx, contexts(session)) && ContextValid(ctx)
    && (ctx.source.Some? ==> ctx.source.value.approved) && !ctx.completedV1
    && var record := Opened(before, session, now, config);
      record.status == Collecting && Enumerates(observations, record.buffer.observations)
  }

  lemma CompletingBuffer(config: Config, contexts: string -> SessionContext, ctx: SessionContext, before: Memory,
                         session: string, now: real, observations: seq<Frame>)
    requires Completing(config, contexts, ctx, before, session, now, observations)
    ensures var buffer := Opened(before, session, now, config).buffer;
      BufferInv(ctx, buffer) && Snapshotted(ctx, buffer, observations)
  {
    hide MemoryInv, BufferInv, ContextValid, Enumerates, Snapshotted, SameSession, Frame.Valid;
    var record := Opened(before, session, now, config);
    OpenedInv(config, contexts, before, session, now);
    FlagBack(ctx, contexts(session), record.buffer);
    SnapshotHolds(ctx, record.buffer, observations);
  }

  /** Any two enumerations of the buffer prepare the same outcome. */
  lemma PreparedAlike(ctx: SessionContext, b: Buffer, a: seq<Frame>, a': seq<Frame>, settings: Settings, modelId: string,
                      accepted: Acceptance)
    requires Snapshotted(ctx, b, a) && Snapshotted(ctx, b, a')
    ensures Prepare(ctx, a, b.sourceHits, settings, modelId, accepted) ==
      Prepare(ctx, a', b.sourceHits, settings, modelId, accepted)
  {
    hide Prepare, BufferInv, ContextValid, Enumerates, Frame.Valid, HitsKnown, Admissible;
    PrepareIgnoresOrder(ctx, b, a, a', settings, modelId, accepted);
  }

  /**
   Completing a session that has frames escapes with an exception, leaving it pending without a job,
   exactly when its evidence is refused: for its windows, an expression summary or its colours.
   */
  lemma EscapesExactly(config: Config, contexts: string -> SessionContext, ctx: SessionContext, before: Memory,
                       session: string, modelId: string, jobId: nat, now: real, after: Memory, r: BeginResult,
                       observations: seq<Frame>)
    requires Completing(config, contexts, ctx, before, session, now, observations) && observations != []
    requires Begins(config, ctx, before, session, modelId, jobId, now, after, r)
    ensures forall o :: o in observations ==> o.Valid()
    ensures ctx.source.Some? ==>
      HitsKnown(Opened(before, session, now, config).buffer.sourceHits, ctx.source.value.sources)
    ensures r == Escaped <==>
      || AggregationRefused(ctx, observations, config.settings.inputVariant)
      || ColoursRefused(ctx, Opened(before, session, now, config).buffer, observations)
  {
    hide MemoryInv, BufferInv, ContextValid, Enumerates, SameSession, Frame.Valid, Prepare, HitsKnown,
      AggregationRefused, ColoursRefused, Admissible, Opened;
    var record := Opened(before, session, now, config);
    var accepted := Acceptance(config.scope, session);
    CompletingBuffer(config, contexts, ctx, before, session, now, observations);
    var actual: seq<Frame> :| Enumerates(actual, record.buffer.observations) && (forall o :: o in actual ==> o.Valid())
      && (ctx.source.Some? ==> HitsKnown(record.buffer.sourceHits, ctx.source.value.sources))
      && (after, r) == Begun(config, before, session, record,
                             Prepare(ctx, actual, record.buffer.sourceHits, config.settings, modelId, accepted), jobId, now);
    CompletingBuffer(config, contexts, ctx, before, session, now, actual);
    PreparedAlike(ctx, record.buffer, actual, observations, config.settings, modelId, accepted);
    AggregationTotal(ctx, record.buffer, observations, config.settings, modelId, accepted);
  }

  // ----- Requests come from snapshots -----

  /** A completion that started a job, and the buffer that it read. */
  datatype Origin = Origin(jobId: nat, session: string, buffer: Buffer, modelId: string, flag: bool)

  function OriginOf(w: World, a: Action): Origin
    requires a.Begin?
  {
    Origin(a.jobId, a.session, Opened(w.memory, a.session, w.clock, w.config).buffer, a.modelId, a.completedV1)
  }

  /** A step that starts a job is one of the origins. */
  predicate Accounted(w: World, a: Action, origins: set<Origin>) {
    a.Begin? && a.result.Started? ==> OriginOf(w, a) in origins
  }

  /** The origins that the first `n` steps of a run account for. */
  ghost function Origins(worlds: seq<World>, actions: seq<Action>, n: nat): set<Origin>
    requires n <= |actions| < |worlds|
  {
    set i | 0 <= i < n && actions[i].Begin? && actions[i].result.Started? :: OriginOf(worlds[i], actions[i])
  }

  /** The request of job `j` was built from a snapshot of the buffer that its own completion read. */
  ghost predicate Derived(contexts: string -> SessionContext, origins: set<Origin>, settings: Settings, j: nat,
                          session: string, request: Request)
  {
    hide Dispatches;
    exists o: Origin, observations: seq<Frame> ::
      o in origins && o.jobId == j && o.session == session
      && Dispatches(contexts(session).(completedV1 := o.flag), o.buffer, observations, settings, o.modelId, request)
  }

  lemma StartedIsDerived(config: Config, contexts: string -> SessionContext, before: Memory, session: string,
                         modelId: string, flag: bool, jobId: nat, now: real, after: Memory, r: BeginResult)
    requires MemoryInv(config, contexts, before) && ContextValid(contexts(session))
    requires Begins(config, contexts(session).(completedV1 := flag), before, session, modelId, jobId, now, after, r)
    requires r.Started?
    ensures jobId in after.jobs && after.jobs[jobId].sessionId == session && after.jobs[jobId].request.Some?
    ensures Opened(before, session, now, config).status == Collecting
    ensures Derived(contexts, {Origin(jobId, session, Opened(before, session, now, config).buffer, modelId, flag)},
                    config.settings, jobId, session, after.jobs[jobId].request.value)
  {
    hide MemoryInv, BufferInv, ContextValid, Enumerates, SameSession, Frame.Valid, Prepare, HitsKnown, Opened,
      Snapshotted;
    var ctx := contexts(session).(completedV1 := flag);
    FlagOnly(contexts(session), flag);
    ContextFlag(contexts(session), ctx);
    var record := Opened(before, session, now, config);
    var accepted := Acceptance(config.scope, session);
    var actual: seq<Frame> :| Enumerates(actual, record.buffer.observations) && (forall o :: o in actual ==> o.Valid())
      && (ctx.source.Some? ==> HitsKnown(record.buffer.sourceHits, ctx.source.value.sources))
      && (after, r) == Begun(config, before, session, record,
                             Prepare(ctx, actual, record.buffer.sourceHits, config.settings, modelId, accepted), jobId, now);
    CompletingBuffer(config, contexts, ctx, before, session, now, actual);
    var request := after.jobs[jobId].request.value;
    var o := Origin(jobId, session, record.buffer, modelId, flag);
    assert o in {o} && o.jobId == jobId && o.session == session
      && Dispatches(contexts(session).(completedV1 := o.flag), o.buffer, actual, config.settings, o.modelId, request);
  }

  lemma MoreOrigins(contexts: string -> SessionContext, few: set<Origin>, more: set<Origin>, settings: Settings, j: nat,
                    session: string, request: Request)
    requires Derived(contexts, few, settings, j, session, request) && few <= more
    ensures Derived(contexts, more, settings, j, session, request)
  {
    hide Dispatches;
  }

  /** Every request that a job or a task holds was derived from a snapshot of its own session. */
  ghost predicate RequestsDerived(contexts: string -> SessionContext, origins: set<Origin>, settings: Settings,
                                  jobs: map<nat, Job>,
                                  tasks: map<nat, Task>)
  {
    && (forall j :: j in jobs && jobs[j].request.Some? ==>
      Derived(contexts, origins, settings, j, jobs[j].sessionId, jobs[j].request.value))
    && (forall j :: j in tasks && tasks[j].Awaiting? ==>
      j in jobs && Derived(contexts, origins, settings, j, jobs[j].sessionId, tasks[j].request))
  }

  lemma KeptRequests(contexts: string -> SessionContext, origins: set<Origin>, settings: Settings, a: map<nat, Job>,
                     b: map<nat, Job>,
                     tasks: map<nat, Task>, tasks': map<nat, Task>)
    requires RequestsDerived(contexts, origins, settings, a, tasks)
    requires forall j :: j in a ==> j in b && b[j].sessionId == a[j].sessionId
    requires forall j :: j in b && b[j].request.Some? ==> j in a && b[j] == a[j]
    requires forall j :: j in tasks' && tasks'[j].Awaiting? ==>
      (j in tasks && tasks'[j] == tasks[j]) || (j in a && a[j].request == Some(tasks'[j].request))
    ensures RequestsDerived(contexts, origins, settings, b, tasks')
  {
    hide Derived;
  }

  lemma QuietRequests(contexts: string -> SessionContext, origins: set<Origin>, settings: Settings, a: Memory,
                      b: Memory, tasks: map<nat, Task>)
    requires RequestsDerived(contexts, origins, settings, a.jobs, tasks) && Quiet(a, b)
    ensures RequestsDerived(contexts, origins, settings, b.jobs, tasks)
  {
    hide Derived;
    KeptRequests(contexts, origins, settings, a.jobs, b.jobs, tasks, tasks);
  }

  ghost predicate WorldDerived(contexts: string -> SessionContext, origins: set<Origin>, w: World) {
    RequestsDerived(contexts, origins, w.config.settings, w.memory.jobs, w.tasks)
  }

  lemma BeginDerived(contexts: string -> SessionContext, origins: set<Origin>, w: World, session: string,
                     modelId: string, flag: bool,
                     jobId: nat, result: BeginResult, after: Memory)
    requires Safe(contexts, w) && WorldDerived(contexts, origins, w) && jobId !in w.history.begun && ContextValid(contexts(session))
    requires Begins(w.config, contexts(session).(completedV1 := flag), w.memory, session, modelId, jobId, w.clock, after,
                    result)
    requires result.Started? ==>
      Origin(jobId, session, Opened(w.memory, session, w.clock, w.config).buffer, modelId, flag) in origins
    ensures RequestsDerived(contexts, origins, w.config.settings, after.jobs, w.tasks)
  {
    hide ProcessSafe, HistorySafe, TableSound, Begins, ContextValid, Derived, BeganWorld, MemoryInv, Opened;
    BeginProcess(contexts, w, session, modelId, flag, jobId, result, after);
    ProcessMemory(contexts, w);
    if result.Started? {
      StartedIsDerived(w.config, contexts, w.memory, session, modelId, flag, jobId, w.clock, after, result);
      MoreOrigins(contexts, {Origin(jobId, session, Opened(w.memory, session, w.clock, w.config).buffer, modelId, flag)},
                  origins, w.config.settings, jobId, session, after.jobs[jobId].request.value);
    }
    BeginRequests(contexts, origins, w, session, jobId, result, after);
  }

  lemma BeginRequests(contexts: string -> SessionContext, origins: set<Origin>, w: World, session: string,
                      jobId: nat, result: BeginResult,
                      after: Memory)
    requires WorldDerived(contexts, origins, w) && jobId !in w.memory.jobs
    requires BeginOutcome(w.config, w.memory, session, jobId, w.clock, after, result)
    requires result.Started? ==>
      && jobId in after.jobs && after.jobs[jobId].sessionId == session && after.jobs[jobId].request.Some?
      && Derived(contexts, origins, w.config.settings, jobId, session, after.jobs[jobId].request.value)
    ensures RequestsDerived(contexts, origins, w.config.settings, after.jobs, w.tasks)
  {
    hide Derived;
    if result.Started? || result.Escaped? {
      var m := Besides(after, session, jobId);
      QuietRequests(contexts, origins, w.config.settings, w.memory, m, w.tasks);
      BesidesRequests(contexts, origins, w.config.settings, after, session, jobId, w.tasks);
    } else {
      QuietRequests(contexts, origins, w.config.settings, w.memory, after, w.tasks);
    }
  }

  lemma BesidesRequests(contexts: string -> SessionContext, origins: set<Origin>, settings: Settings, after: Memory,
                        session: string, jobId: nat,
                        tasks: map<nat, Task>)
    requires RequestsDerived(contexts, origins, settings, Besides(after, session, jobId).jobs, tasks)
    requires jobId in after.jobs && after.jobs[jobId].request.Some? ==>
      Derived(contexts, origins, settings, jobId, after.jobs[jobId].sessionId, after.jobs[jobId].request.value)
    ensures RequestsDerived(contexts, origins, settings, after.jobs, tasks)
  {
    hide Derived;
    var m := Besides(after, session, jobId);
    forall j | j in after.jobs && after.jobs[j].request.Some?
      ensures Derived(contexts, origins, settings, j, after.jobs[j].sessionId, after.jobs[j].request.value)
    {
      if j != jobId {
        assert m.jobs[j] == after.jobs[j];
      }
    }
  }

  lemma SameJobsDerived(contexts: string -> SessionContext, origins: set<Origin>, w: World, n: World)
    requires WorldDerived(contexts, origins, w) && n.config.settings == w.config.settings && n.memory.jobs == w.memory.jobs
    requires forall j :: j in n.tasks && n.tasks[j].Awaiting? ==>
      || (j in w.tasks && n.tasks[j] == w.tasks[j])
      || (j in w.memory.jobs && w.memory.jobs[j].request == Some(n.tasks[j].request))
    ensures WorldDerived(contexts, origins, n)
  {
    hide Derived;
    KeptRequests(contexts, origins, w.config.settings, w.memory.jobs, n.memory.jobs, w.tasks, n.tasks);
  }

  lemma QuietDerived(contexts: string -> SessionContext, origins: set<Origin>, w: World, n: World)
    requires WorldDerived(contexts, origins, w) && n.config.settings == w.config.settings && Quiet(w.memory, n.memory)
    requires forall j :: j in n.tasks ==> j in w.tasks && n.tasks[j] == w.tasks[j]
    ensures WorldDerived(contexts, origins, n)
  {
    hide Derived;
    KeptRequests(contexts, origins, w.config.settings, w.memory.jobs, n.memory.jobs, w.tasks, n.tasks);
  }

  lemma CommitDerived(contexts: string -> SessionContext, origins: set<Origin>, w: World, j: nat, d: Decision, n: World)
    requires Safe(contexts, w) && WorldDerived(contexts, origins, w) && j in w.memory.jobs
    requires d.Valid() && d.accepted == w.memory.jobs[j].accepted
    requires n.config == w.config
    requires n.memory == CommittedWorld(w, j, d).memory || n.memory == Released(CommittedWorld(w, j, d), j).memory
    requires forall k :: k in n.tasks ==> k in w.tasks && n.tasks[k] == w.tasks[k]
    ensures WorldDerived(contexts, origins, n)
  {
    hide WorldDerived, ProcessSafe, HistorySafe, TableSound, CommittedWorld, Released, Quiet, Decision.Valid, Active;
    var m := CommittedWorld(w, j, d);
    CommitProcess(contexts, w, j, d);
    ReleaseProcess(contexts, m, j);
    QuietTransitive(w.memory, m.memory, Released(m, j).memory);
    QuietDerived(contexts, origins, w, n);
  }

  lemma ReleaseDerived(contexts: string -> SessionContext, origins: set<Origin>, w: World, j: nat, n: World)
    requires WorldDerived(contexts, origins, w) && n.config == w.config && n.memory == Released(w, j).memory
    requires forall k :: k in n.tasks ==> k in w.tasks && n.tasks[k] == w.tasks[k]
    ensures WorldDerived(contexts, origins, n)
  {
    hide WorldDerived, Quiet;
    ReleaseQuiet(w.memory, j);
    QuietDerived(contexts, origins, w, n);
  }

  lemma RememberedDerived(contexts: string -> SessionContext, origins: set<Origin>, w: World, m: Memory, left: set<DbCall>)
    requires WorldDerived(contexts, origins, w) && Quiet(w.memory, m)
    ensures WorldDerived(contexts, origins, Remembering(w, m, left))
  {
    hide WorldDerived, Quiet, Remembering;
    RememberingParts(w, m, left);
    QuietDerived(contexts, origins, w, Remembering(w, m, left));
  }

  lemma AppendDerived(contexts: string -> SessionContext, origins: set<Origin>, w: World, session: string,
                      batch: Batch, flag: bool,
                      ack: Result<AckStatus, ErrorCode>, after: Memory, left: set<DbCall>)
    requires Safe(contexts, w) && WorldDerived(contexts, origins, w) && batch.Valid()
    requires Appends(w.config, contexts(session).(completedV1 := flag), w.memory, session, batch, w.clock, after, ack)
    ensures WorldDerived(contexts, origins, Remembering(w, after, left))
  {
    hide WorldDerived, Quiet, Remembering, Appends, ProcessSafe, HistorySafe, TableSound;
    AppendProcess(contexts, w, session, batch, flag, ack, after, left);
    RememberedDerived(contexts, origins, w, after, left);
  }

  lemma CancelledDerived(contexts: string -> SessionContext, origins: set<Origin>, w: World, session: string)
    requires WorldDerived(contexts, origins, w)
    ensures WorldDerived(contexts, origins, CancelledWorld(w, session))
  {
    hide WorldDerived, Quiet, Gone, CancelledWorld;
    CancelQuiet(w.memory, session);
    CancelledParts(w, session);
    QuietDerived(contexts, origins, w, CancelledWorld(w, session));
  }

  lemma ReadBackDerived(contexts: string -> SessionContext, origins: set<Origin>, w: World, session: string)
    requires WorldDerived(contexts, origins, w)
    ensures WorldDerived(contexts, origins, ReadBackWorld(w, session))
  {
    hide WorldDerived, Quiet, ReadBackWorld;
    SameQuiet(w.memory);
    ReadBackParts(w, session);
    QuietDerived(contexts, origins, w, ReadBackWorld(w, session));
  }

  lemma EmptyDerived(contexts: string -> SessionContext, origins: set<Origin>, w: World)
    requires w.memory == EmptyMemory && w.tasks == map[]
    ensures WorldDerived(contexts, origins, w)
  {
    hide Derived;
  }

  lemma BeganDerived(contexts: string -> SessionContext, origins: set<Origin>, w: World, session: string,
                     modelId: string, flag: bool,
                     jobId: nat, result: BeginResult, after: Memory)
    requires Safe(contexts, w) && WorldDerived(contexts, origins, w) && jobId !in w.history.begun && ContextValid(contexts(session))
    requires Begins(w.config, contexts(session).(completedV1 := flag), w.memory, session, modelId, jobId, w.clock, after,
                    result)
    requires result.Started? ==>
      Origin(jobId, session, Opened(w.memory, session, w.clock, w.config).buffer, modelId, flag) in origins
    ensures WorldDerived(contexts, origins, BeganWorld(w, session, jobId, result, after))
  {
    hide ProcessSafe, HistorySafe, TableSound, Begins, ContextValid, RequestsDerived, BeganWorld;
    BeginDerived(contexts, origins, w, session, modelId, flag, jobId, result, after);
    BeganParts(w, session, jobId, result, after);
  }

  lemma JobStepKeepsDerived(contexts: string -> SessionContext, origins: set<Origin>, w: World, a: Action, n: World)
    requires Safe(contexts, w) && StepOf(contexts, w, a, n) && OfJob(a)
    requires WorldDerived(contexts, origins, w)
    ensures WorldDerived(contexts, origins, n)
  {
    hide WorldDerived, ProcessSafe, TableSound, Appends, Begins, ContextValid, BeganWorld, CancelledWorld, ReadBackWorld,
      Remembering, StartFailedWorld, CommittedWorld, StartedTask, Released, Delivered, SavedWorld, ClaimedWorld, HistorySafe,
      OrphansFailed, Retained, InflightFailed, Lapsed, OrphanCalls, Decides, Quiet, Active;
    match a {
      case Save(j, ending) =>
        SavedParts(w, j, ending);
        SameJobsDerived(contexts, origins, w, n);
      case Claim(j, ending) =>
        ClaimedParts(w, j, ending);
        SameJobsDerived(contexts, origins, w, n);
      case Submit(_, _) => SameJobsDerived(contexts, origins, w, n);
      case StartFailed(j) =>
        StartFailedParts(w, j);
        SameJobsDerived(contexts, origins, w, n);
      case CommitFailed(j) => CommitStepKeepsDerived(contexts, origins, w, a, n);
      case TaskStarts(j) =>
        StartedParts(w, j);
        SameJobsDerived(contexts, origins, w, n);
      case TaskReplies(j, d) => CommitStepKeepsDerived(contexts, origins, w, a, n);
      case TaskCancelled(j) =>
        ReleasedParts(w, j);
        ReleaseDerived(contexts, origins, w, j, n);
      case ClearJob(j) =>
        ReleasedParts(w, j);
        ReleaseDerived(contexts, origins, w, j, n);
    }
  }

  lemma CommitStepKeepsDerived(contexts: string -> SessionContext, origins: set<Origin>, w: World, a: Action, n: World)
    requires Safe(contexts, w) && StepOf(contexts, w, a, n) && (a.CommitFailed? || a.TaskReplies?)
    requires WorldDerived(contexts, origins, w)
    ensures WorldDerived(contexts, origins, n)
  {
    hide WorldDerived, ProcessSafe, TableSound, Appends, Begins, ContextValid, BeganWorld, CancelledWorld, ReadBackWorld,
      Remembering, StartFailedWorld, CommittedWorld, StartedTask, Released, Delivered, SavedWorld, ClaimedWorld, HistorySafe,
      OrphansFailed, Retained, InflightFailed, Lapsed, OrphanCalls, Decides, Quiet, Active;
    match a {
      case CommitFailed(j) =>
        CallDecision(w, j);
        CommittedParts(w, j, w.calls[j].decision);
        CommitDerived(contexts, origins, w, j, w.calls[j].decision, n);
      case TaskReplies(j, d) =>
        DecidesValid(w.tasks[j].request, d);
        CommittedParts(w, j, d);
        ReleasedParts(CommittedWorld(w, j, d), j);
        CommitDerived(contexts, origins, w, j, d, n);
    }
  }

  lemma OtherStepKeepsDerived(contexts: string -> SessionContext, origins: set<Origin>, w: World, a: Action, n: World)
    requires (forall s :: ContextValid(contexts(s))) && Safe(contexts, w) && StepOf(contexts, w, a, n) && !OfJob(a)
    requires WorldDerived(contexts, origins, w) && Accounted(w, a, origins)
    ensures WorldDerived(contexts, origins, n)
  {
    hide WorldDerived, ProcessSafe, TableSound, Appends, Begins, ContextValid, BeganWorld, CancelledWorld, ReadBackWorld,
      Remembering, StartFailedWorld, CommittedWorld, StartedTask, Released, Delivered, SavedWorld, ClaimedWorld, HistorySafe,
      OrphansFailed, Retained, InflightFailed, Lapsed, OrphanCalls, Decides, Quiet, Active;
    match a {
      case Append(session, batch, flag, ack, after) =>
        AppendDerived(contexts, origins, w, session, batch, flag, ack, after, {});
      case Begin(session, modelId, flag, jobId, result, after) =>
        BeganDerived(contexts, origins, w, session, modelId, flag, jobId, result, after);
      case CancelSession(session) => CancelledDerived(contexts, origins, w, session);
      case Sweep =>
        LapseQuiet(w.memory, w.clock);
        RememberedDerived(contexts, origins, w, Lapsed(w.memory, w.clock), OrphanCalls(w.memory, w.clock));
      case ReadBack(session) => ReadBackDerived(contexts, origins, w, session);
      case Deliver(call, _) =>
        DeliveredParts(w, call);
        SameJobsDerived(contexts, origins, w, n);
      case Restart(_, _) => EmptyDerived(contexts, origins, n);
      case _ => SameJobsDerived(contexts, origins, w, n);
    }
  }

  /** Every step keeps every request traceable to a snapshot. */
  lemma StepKeepsDerived(contexts: string -> SessionContext, origins: set<Origin>, w: World, a: Action, n: World)
    requires (forall s :: ContextValid(contexts(s))) && Safe(contexts, w) && StepOf(contexts, w, a, n)
    requires WorldDerived(contexts, origins, w) && Accounted(w, a, origins)
    ensures WorldDerived(contexts, origins, n)
  {
    hide WorldDerived, Safe, ContextValid, StepOf, Accounted;
    if OfJob(a) {
      JobStepKeepsDerived(contexts, origins, w, a, n);
    } else {
      OtherStepKeepsDerived(contexts, origins, w, a, n);
    }
  }

  lemma ReleasedParts(w: World, j: nat)
    ensures Released(w, j).config == w.config && Released(w, j).tasks == w.tasks && Released(w, j).history == w.history
  {
  }

  lemma CallDecision(w: World, j: nat)
    requires HistorySafe(w) && j in w.calls && w.calls[j].AtFailureCommit?
    ensures j in w.memory.jobs && w.calls[j].decision.Valid()
    ensures w.calls[j].decision.accepted == w.memory.jobs[j].accepted
  {
    hide ClaimsHeld, DispatchesBacked, PublishedOnce, Shown, RowDecided, Decision.Valid;
  }

  lemma MoreWorldDerived(contexts: string -> SessionContext, few: set<Origin>, more: set<Origin>, w: World)
    requires WorldDerived(contexts, few, w) && few <= more
    ensures WorldDerived(contexts, more, w)
  {
    hide Derived;
    forall j: nat, session: string, request: Request | Derived(contexts, few, w.config.settings, j, session, request)
      ensures Derived(contexts, more, w.config.settings, j, session, request)
    {
      MoreOrigins(contexts, few, more, w.config.settings, j, session, request);
    }
  }

  lemma OriginsGrow(worlds: seq<World>, actions: seq<Action>, n: nat)
    requires n < |actions| < |worlds|
    ensures Origins(worlds, actions, n) <= Origins(worlds, actions, n + 1)
    ensures actions[n].Begin? && actions[n].result.Started? ==>
              OriginOf(worlds[n], actions[n]) in Origins(worlds, actions, n + 1)
  {
    hide OriginOf;
  }

  /**
   In every world of every run, the request that a job or its task holds was built from the buffer that the
   completion which started this job read.
   */
  lemma {:induction false} RunKeepsDerived(contexts: string -> SessionContext, config: Config, worlds: seq<World>,
                                           actions: seq<Action>, i: nat)
    requires RunOf(contexts, config, worlds, actions) && i < |worlds|
    ensures WorldDerived(contexts, Origins(worlds, actions, i), worlds[i])
  {
    hide StepOf, Safe, ContextValid, WorldDerived, Origins, OriginOf;
    if i == 0 {
      EmptyDerived(contexts, Origins(worlds, actions, i), worlds[0]);
    } else {
      var more := Origins(worlds, actions, i);
      RunKeepsDerived(contexts, config, worlds, actions, i - 1);
      RunIsSafe(contexts, config, worlds, actions, i - 1);
      assert StepOf(contexts, worlds[i - 1], actions[i - 1], worlds[i]);
      OriginsGrow(worlds, actions, i - 1);
      MoreWorldDerived(contexts, Origins(worlds, actions, i - 1), more, worlds[i - 1]);
      StepKeepsDerived(contexts, more, worlds[i - 1], actions[i - 1], worlds[i]);
    }
  }

  // ----- Published decisions are grounded -----

  /**
   The decision names a catalog product and tags of that product, claims what its path demands, and every
   reference in it is grounded in accepted frames.
   */
  ghost predicate GroundedDecision(ctx: SessionContext, observations: seq<Frame>, request: Request, d: Decision) {
    && (forall f :: f in observations ==> f.Valid())
    && d.selected.Some? && d.selected.value in ProductIds(ctx.products)
    && d.style.Some? && Tagged(ctx.products, d.selected.value, d.style.value.matchedTags)
    && Claims(request, d.selected.value, d.reasonCodes, d.evidence)
    && (forall item :: item in d.evidence ==> item.productId == d.selected.value)
    && (forall item, ref :: item in d.evidence && ref in item.refs ==>
      RefGrounded(ctx, observations, request, d.selected.value, item.code, ref))
  }

  lemma GatedDecisionIsGrounded(ctx: SessionContext, b: Buffer, observations: seq<Frame>, settings: Settings,
                                modelId: string, request: Request, d: Decision)
    requires Dispatches(ctx, b, observations, settings, modelId, request)
    requires Decides(request, d) && d.status == Completed
    ensures GroundedDecision(ctx, observations, request, d)
  {
    hide Dispatches, Admits, RefGrounded, ProductIds, Frame.Valid, Decision.Valid, Tagged, Claims;
    var diagnosis, o :| Admits(request, diagnosis, o)
      && d == CompletedDecision(d.accepted, o, request.evidence.quality, request.evidence.variant);
    GatedOutputIsGrounded(ctx, b, observations, settings, modelId, request, diagnosis, o);
  }

  /** What a run knows about where the frames of a completion come from. */
  ghost predicate Accepted(worlds: seq<World>, actions: seq<Action>, k: nat, j: nat, session: string, b: Buffer,
                           batches: set<Batch>)
    requires k < |actions| < |worlds|
  {
    && actions[k].Begin? && actions[k].session == session && actions[k].jobId == j && actions[k].result.Started?
    && b == Opened(worlds[k].memory, session, worlds[k].clock, worlds[k].config).buffer
    && batches <= AcceptedBatches(actions, k, session) && C.Represents(b, batches)
  }

  /** The frame is the join of what was submitted under its key: it is above all of it, and consists of it. */
  ghost predicate FromBatches(f: Frame, batches: set<Batch>) {
    && C.Sourced(f, C.Submitted(batches))
    && forall o :: o in C.Submitted(batches) && o.FrameKey() == f.FrameKey() ==> FrameLeq(o, f)
  }

  lemma SnapshotFromBatches(b: Buffer, observations: seq<Frame>, batches: set<Batch>)
    requires C.Represents(b, batches) && Enumerates(observations, b.observations)
    ensures forall f :: f in observations ==> FromBatches(f, batches)
  {
    hide C.Sourced, C.Submitted, FrameLeq;
  }

  /**
   Whatever the model replies, in whatever run: when a task turns a reply into a completed decision, that
   decision is grounded in frames of the buffer that this job's completion read, in an earlier step of the
   run, and each of those frames is the join of submissions in batches that the run had accepted for this
   session before.
   */
  lemma RepliesAreGrounded(contexts: string -> SessionContext, config: Config, worlds: seq<World>, actions: seq<Action>,
                           n: nat, j: nat, d: Decision)
    returns (k: nat, batches: set<Batch>, ctx: SessionContext, b: Buffer, observations: seq<Frame>, modelId: string,
             request: Request)
    requires RunOf(contexts, config, worlds, actions) && n < |actions| && actions[n] == TaskReplies(j, d)
    requires d.status == Completed
    ensures k < n && Accepted(worlds, actions, k, j, d.accepted.sessionId, b, batches)
    ensures SameSession(ctx, contexts(d.accepted.sessionId))
    ensures Dispatches(ctx, b, observations, worlds[n].config.settings, modelId, request)
    ensures GroundedDecision(ctx, observations, request, d)
    ensures forall f :: f in observations ==> FromBatches(f, batches)
  {
    hide StepOf, ContextValid, WorldDerived, Dispatches, GroundedDecision, Decides, InitialWorld, Origins, MadeOf,
      AcceptedBatches, C.Represents, FromBatches, Opened, BufferInv;
    assert StepOf(contexts, worlds[n], actions[n], worlds[n + 1]);
    RunKeepsDerived(contexts, config, worlds, actions, n);
    RunIsSafe(contexts, config, worlds, actions, n);
    var session, o := d.accepted.sessionId, Origin(0, "", EmptyBuffer, "", false);
    request, o, observations := ReplyRequest(contexts, Origins(worlds, actions, n), worlds[n], j, d, worlds[n + 1]);
    b, modelId, ctx := o.buffer, o.modelId, contexts(session).(completedV1 := o.flag);
    FlagOnly(contexts(session), o.flag);
    k := OriginStep(worlds, actions, n, o);
    batches := OriginBatches(contexts, config, worlds, actions, k, j, session);
    GatedDecisionIsGrounded(ctx, b, observations, worlds[n].config.settings, modelId, request, d);
    DispatchEnumerates(ctx, b, observations, worlds[n].config.settings, modelId, request);
    SnapshotFromBatches(b, observations, batches);
  }

  lemma OriginStep(worlds: seq<World>, actions: seq<Action>, n: nat, o: Origin) returns (k: nat)
    requires n <= |actions| < |worlds| && o in Origins(worlds, actions, n)
    ensures k < n && actions[k].Begin? && actions[k].result.Started? && o == OriginOf(worlds[k], actions[k])
  {
    hide OriginOf;
    k :| 0 <= k < n && actions[k].Begin? && actions[k].result.Started? && o == OriginOf(worlds[k], actions[k]);
  }

  /** The buffer that a completion read was made of batches accepted before it. */
  lemma OriginBatches(contexts: string -> SessionContext, config: Config, worlds: seq<World>, actions: seq<Action>, k: nat,
                      j: nat, session: string) returns (batches: set<Batch>)
    requires RunOf(contexts, config, worlds, actions) && k < |actions|
    requires actions[k].Begin? && actions[k].result.Started? && actions[k].session == session && actions[k].jobId == j
    ensures Accepted(worlds, actions, k, j, session, OriginOf(worlds[k], actions[k]).buffer, batches)
  {
    hide StepOf, InitialWorld, AcceptedBatches, C.Represents, MemoryInv, BufferInv, Begins, HistorySafe, TableSound, Driven,
      ContextValid;
    var w := worlds[k];
    assert StepOf(contexts, w, actions[k], worlds[k + 1]);
    RunIsSafe(contexts, config, worlds, actions, k);
    StartedCollects(contexts, w, actions[k], worlds[k + 1]);
    EmptyMadeOf(AcceptedBatches(actions, k, session));
    if session in w.memory.sessions {
      BuffersAreAccepted(contexts, config, worlds, actions, k, session);
    }
    var b := Opened(w.memory, session, w.clock, w.config).buffer;
    batches :| batches <= AcceptedBatches(actions, k, session) && C.Represents(b, batches);
  }

  lemma StartedCollects(contexts: string -> SessionContext, w: World, a: Action, n: World)
    requires StepOf(contexts, w, a, n) && a.Begin? && a.result.Started?
    ensures Opened(w.memory, a.session, w.clock, w.config).status == Collecting
  {
    hide Apply, Prepare, Enumerates, Frame.Valid, HitsKnown, Opened;
  }

  lemma DispatchEnumerates(ctx: SessionContext, b: Buffer, observations: seq<Frame>, settings: Settings, modelId: string,
                           request: Request)
    requires Dispatches(ctx, b, observations, settings, modelId, request)
    ensures Enumerates(observations, b.observations)
  {
    hide Prepare, Enumerates, BufferInv, ContextValid, Frame.Valid, Admissible, HitsKnown;
  }

  lemma ReplyRequest(contexts: string -> SessionContext, origins: set<Origin>, w: World, j: nat, d: Decision, next: World)
    returns (request: Request, o: Origin, observations: seq<Frame>)
    requires Safe(contexts, w) && WorldDerived(contexts, origins, w) && StepOf(contexts, w, TaskReplies(j, d), next)
    ensures Decides(request, d)
    ensures o in origins && o.jobId == j && o.session == d.accepted.sessionId
    ensures Dispatches(contexts(d.accepted.sessionId).(completedV1 := o.flag), o.buffer, observations, w.config.settings,
                       o.modelId, request)
  {
    hide Apply, HistorySafe, TableSound, MemoryInv, Driven, Decides, Dispatches;
    request := w.tasks[j].request;
    JobOwner(w, j);
    assert Derived(contexts, origins, w.config.settings, j, w.memory.jobs[j].sessionId, request);
    o, observations :| o in origins && o.jobId == j && o.session == d.accepted.sessionId
      && Dispatches(contexts(d.accepted.sessionId).(completedV1 := o.flag), o.buffer, observations, w.config.settings,
                    o.modelId, request);
  }
}
