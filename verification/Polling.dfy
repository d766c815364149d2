/**
 What a poll is told once a session was decided: the decision that was published, until it expires or the
 session is forgotten, and whoever completes the session again hands that decision to the database.
 */
module Polling {
  import opened Common
  import opened Observations
  import opened Ingestion
  import opened Snapshots
  import opened SourceEvidence
  import opened Gate
  import opened Completion
  import opened SessionMemory
  import opened JobRows
  import opened Protocol
  import opened ProtocolMemory
  import opened ProtocolRows
  import opened ProtocolFacts
  import opened Provenance

  // ----- One call after another -----

  /** After a commit that published, every poll before expiry is told that very decision. */
  lemma CommittedIsAnswered(config: Config, m: Memory, session: string, jobId: nat, decision: Decision, now: real,
                            jobs: map<nat, Job>, later: real)
    requires m.sessions.Keys >= {session} && m.sessions[session].accepted.Some?
    requires Committed(config, m, session, jobId, decision, now).1 && later < now + config.decisionTtl
    ensures AnswerFor(Swept(Committed(config, m, session, jobId, decision, now).0.(jobs := jobs), later), session)
      == Decided(decision)
  {
  }

  /**
   A completion that decides at once has prepared an immediate decision, and every poll before expiry is
   told that very decision.
   */
  lemma DecidedAtOnceIsAnswered(config: Config, ctx: SessionContext, before: Memory, session: string, modelId: string,
                                jobId: nat, now: real, after: Memory, r: BeginResult, later: real)
    returns (observations: seq<Frame>)
    requires Begins(config, ctx, before, session, modelId, jobId, now, after, r) && r.DecidedAtOnce?
    requires later < now + config.decisionTtl
    ensures var buffer := Opened(before, session, now, config).buffer;
      && Enumerates(observations, buffer.observations) && (forall o :: o in observations ==> o.Valid())
      && (ctx.source.Some? ==> HitsKnown(buffer.sourceHits, ctx.source.value.sources))
      && var prepared := Prepare(ctx, observations, buffer.sourceHits, config.settings, modelId, r.accepted);
      && prepared.Immediate? && AnswerFor(Swept(after, later), session) == Decided(prepared.decision)
  {
    hide Enumerates, Prepare, Frame.Valid, HitsKnown, SweptJob;
    var record := Opened(before, session, now, config);
    observations :|
      && Enumerates(observations, record.buffer.observations) && (forall o :: o in observations ==> o.Valid())
      && (ctx.source.Some? ==> HitsKnown(record.buffer.sourceHits, ctx.source.value.sources))
      && (after, r) == Begun(config, before, session, record,
                             Prepare(ctx, observations, record.buffer.sourceHits, config.settings, modelId,
                                     Acceptance(config.scope, session)), jobId, now);
  }

  // ----- A decision stays -----

  predicate IsTerminal(m: Memory, s: string) {
    s in m.sessions && m.sessions[s].status == Terminal
  }

  lemma AppendSpares(config: Config, ctx: SessionContext, before: Memory, session: string, batch: Batch, now: real,
                     after: Memory, r: Result<AckStatus, ErrorCode>, s: string)
    requires batch.Valid() && Appends(config, ctx, before, session, batch, now, after, r) && IsTerminal(before, s)
    ensures Kept(before, after, s)
  {
    hide Ingests, CheckBatch, Frame.Valid;
  }

  lemma BeginSpares(config: Config, ctx: SessionContext, before: Memory, session: string, modelId: string, jobId: nat,
                    now: real, after: Memory, r: BeginResult, s: string)
    requires Begins(config, ctx, before, session, modelId, jobId, now, after, r) && IsTerminal(before, s)
    ensures Kept(before, after, s)
  {
    hide Prepare, Frame.Valid, HitsKnown, Enumerates;
  }

  lemma CommitSpares(w: World, j: nat, d: Decision, s: string)
    requires j in w.memory.jobs && IsTerminal(w.memory, s)
    ensures Kept(w.memory, CommittedWorld(w, j, d).memory, s)
  {
  }

  /** The steps that forget a decided session. */
  predicate Forgets(w: World, a: Action, s: string) {
    || a == CancelSession(s) || a.Restart?
    || (a.Sweep? && s in w.memory.sessions && w.memory.sessions[s].expiresAt <= w.clock)
  }

  /** No other step touches the record of a decided session. */
  lemma TerminalStays(contexts: string -> SessionContext, w: World, a: Action, n: World, s: string)
    requires StepOf(contexts, w, a, n) && IsTerminal(w.memory, s) && !Forgets(w, a, s)
    ensures Kept(w.memory, n.memory, s)
  {
    hide StepOf, Kept, IsTerminal;
    if a.Append? || a.Begin? {
      RequestSpares(contexts, w, a, n, s);
    } else if OfJob(a) {
      JobSpares(contexts, w, a, n, s);
    } else {
      OtherSpares(contexts, w, a, n, s);
    }
  }

  lemma RequestSpares(contexts: string -> SessionContext, w: World, a: Action, n: World, s: string)
    requires StepOf(contexts, w, a, n) && IsTerminal(w.memory, s) && (a.Append? || a.Begin?)
    ensures Kept(w.memory, n.memory, s)
  {
    hide Appends, Begins, BeganWorld, CommittedWorld, StartFailedWorld, StartedTask, SavedWorld, ClaimedWorld, Delivered,
      CancelledWorld, ReadBackWorld, Remembering, OrphansFailed, InflightFailed, Retained, OrphanCalls, Decides, Active,
      Kept, IsTerminal;
    match a {
      case Append(session, batch, flag, ack, after) =>
        RememberingParts(w, after, {});
        AppendSpares(w.config, contexts(session).(completedV1 := flag), w.memory, session, batch, w.clock, after, ack, s);
      case Begin(session, modelId, flag, jobId, result, after) =>
        BeganParts(w, session, jobId, result, after);
        BeginSpares(w.config, contexts(session).(completedV1 := flag), w.memory, session, modelId, jobId, w.clock, after,
                    result, s);
    }
  }

  lemma JobSpares(contexts: string -> SessionContext, w: World, a: Action, n: World, s: string)
    requires StepOf(contexts, w, a, n) && IsTerminal(w.memory, s) && OfJob(a)
    ensures Kept(w.memory, n.memory, s)
  {
    hide Appends, Begins, BeganWorld, CommittedWorld, StartFailedWorld, StartedTask, SavedWorld, ClaimedWorld, Delivered,
      CancelledWorld, ReadBackWorld, Remembering, OrphansFailed, InflightFailed, Retained, OrphanCalls, Decides, Active;
    match a {
      case Save(j, ending) => SavedParts(w, j, ending);
      case Claim(j, ending) => ClaimedParts(w, j, ending);
      case Submit(_, _) =>
      case StartFailed(j) => StartFailedParts(w, j);
      case CommitFailed(j) => CommitSpares(w, j, w.calls[j].decision, s);
      case TaskStarts(j) => StartedParts(w, j);
      case TaskReplies(j, d) => CommitSpares(w, j, d, s);
      case TaskCancelled(_) =>
      case ClearJob(_) =>
    }
  }

  lemma OtherSpares(contexts: string -> SessionContext, w: World, a: Action, n: World, s: string)
    requires StepOf(contexts, w, a, n) && IsTerminal(w.memory, s) && !Forgets(w, a, s)
    requires !OfJob(a) && !a.Append? && !a.Begin?
    ensures Kept(w.memory, n.memory, s)
  {
    hide Appends, Begins, BeganWorld, CommittedWorld, StartFailedWorld, StartedTask, SavedWorld, ClaimedWorld, Delivered,
      CancelledWorld, ReadBackWorld, Remembering, OrphansFailed, InflightFailed, Retained, OrphanCalls, Decides, Active;
    match a {
      case CancelSession(session) => CancelledParts(w, session);
      case Sweep => RememberingParts(w, Lapsed(w.memory, w.clock), OrphanCalls(w.memory, w.clock));
      case ReadBack(session) => ReadBackParts(w, session);
      case Deliver(call, _) => DeliveredParts(w, call);
      case _ =>
    }
  }

  lemma ClockForward(contexts: string -> SessionContext, w: World, a: Action, n: World)
    requires StepOf(contexts, w, a, n)
    ensures w.clock <= n.clock
  {
    hide Appends, Begins, BeganWorld, CommittedWorld, StartFailedWorld, StartedTask, SavedWorld, ClaimedWorld, Delivered,
      CancelledWorld, ReadBackWorld, OrphansFailed, InflightFailed, Retained, OrphanCalls, Decides, Active, Shown, Lapsed;
    match a {
      case Begin(session, _, _, jobId, result, after) => BeganParts(w, session, jobId, result, after);
      case Save(j, ending) => SavedParts(w, j, ending);
      case Claim(j, ending) => ClaimedParts(w, j, ending);
      case StartFailed(j) => StartFailedParts(w, j);
      case CommitFailed(j) => CommittedParts(w, j, w.calls[j].decision);
      case TaskStarts(j) => StartedParts(w, j);
      case TaskReplies(j, d) => CommittedParts(w, j, d);
      case CancelSession(session) => CancelledParts(w, session);
      case ReadBack(session) => ReadBackParts(w, session);
      case Deliver(call, _) => DeliveredParts(w, call);
      case _ =>
    }
  }

  /** Between two worlds the session is not cancelled and the process not restarted. */
  predicate Undisturbed(actions: seq<Action>, i: nat, j: nat, s: string)
    requires i <= j <= |actions|
  {
    forall k :: i <= k < j ==> actions[k] != CancelSession(s) && !actions[k].Restart?
  }

  /** Over a whole run: a decided session keeps its record up to its expiry. */
  lemma {:induction false} DecisionStays(contexts: string -> SessionContext, config: Config, worlds: seq<World>,
                                         actions: seq<Action>, i: nat, j: nat, s: string)
    requires RunOf(contexts, config, worlds, actions) && i <= j < |worlds| && Undisturbed(actions, i, j, s)
    requires IsTerminal(worlds[i].memory, s) && worlds[j].clock < worlds[i].memory.sessions[s].expiresAt
    ensures Kept(worlds[i].memory, worlds[j].memory, s)
  {
    hide StepOf, ContextValid, InitialWorld;
    if i < j {
      assert StepOf(contexts, worlds[j - 1], actions[j - 1], worlds[j]);
      ClockForward(contexts, worlds[j - 1], actions[j - 1], worlds[j]);
      DecisionStays(contexts, config, worlds, actions, i, j - 1, s);
      TerminalStays(contexts, worlds[j - 1], actions[j - 1], worlds[j], s);
    }
  }

  // ----- Whoever asks is told the decision, and completing again saves it -----

  /** The session was decided: it has this decision, and until when. */
  predicate HasDecision(m: Memory, s: string, d: Decision, until: real) {
    && IsTerminal(m, s) && m.sessions[s].accepted.Some? && m.sessions[s].decision == Some(d)
    && m.sessions[s].expiresAt == until
  }

  lemma DecisionIsAnswered(m: Memory, s: string, d: Decision, until: real)
    requires HasDecision(m, s, d, until)
    ensures AnswerFor(m, s) == Decided(d)
  {
  }

  /** Step `a` published `d` for session `s`: a job committed it, or the completion decided at once. */
  predicate Published(w: World, a: Action, n: World, s: string, d: Decision) {
    match a
    case TaskReplies(j, reply) => j in w.memory.jobs && w.memory.jobs[j].sessionId == s && d == reply
                                  && n.history.published != w.history.published
    case CommitFailed(j) =>
      && j in w.memory.jobs && w.memory.jobs[j].sessionId == s && n.history.published != w.history.published
      && j in w.calls && w.calls[j] == AtFailureCommit(d)
    case Begin(session, _, _, _, result, _) =>
      session == s && result.DecidedAtOnce? && s in n.memory.sessions && n.memory.sessions[s].decision == Some(d)
    case _ => false
  }

  lemma CommitPublished(contexts: string -> SessionContext, w: World, j: nat, d: Decision, s: string)
    requires j in w.memory.jobs && w.memory.jobs[j].sessionId == s && MemoryInv(w.config, contexts, w.memory)
    requires CommittedWorld(w, j, d).history.published != w.history.published
    ensures HasDecision(CommittedWorld(w, j, d).memory, s, d, w.clock + w.config.decisionTtl)
  {
    hide MemoryInv, BufferInv, JobInv, Decision.Valid;
    CommittedParts(w, j, d);
    SessionInv(w.config, contexts, w.memory, s);
  }

  lemma ReleasedShowsIt(w: World, j: nat, s: string, d: Decision, until: real)
    requires HasDecision(w.memory, s, d, until)
    ensures HasDecision(Released(w, j).memory, s, d, until) && Released(w, j).history == w.history
  {
  }

  lemma BeginPublished(config: Config, ctx: SessionContext, before: Memory, session: string, modelId: string, jobId: nat,
                       now: real, after: Memory, r: BeginResult, d: Decision)
    requires Begins(config, ctx, before, session, modelId, jobId, now, after, r) && r.DecidedAtOnce?
    requires session in after.sessions && after.sessions[session].decision == Some(d)
    ensures HasDecision(after, session, d, now + config.decisionTtl)
  {
    hide Prepare, Frame.Valid, HitsKnown, Enumerates;
  }

  /** A publication leaves the decision in the session's record, with its full time to live. */
  lemma PublicationShows(contexts: string -> SessionContext, w: World, a: Action, n: World, s: string, d: Decision)
    requires StepOf(contexts, w, a, n) && MemoryInv(w.config, contexts, w.memory) && Published(w, a, n, s, d)
    ensures HasDecision(n.memory, s, d, w.clock + w.config.decisionTtl)
  {
    hide Appends, Begins, BeganWorld, CommittedWorld, Decides, Active, HasDecision, MemoryInv, Released;
    match a {
      case TaskReplies(j, _) =>
        ReleasedParts(CommittedWorld(w, j, d), j);
        CommitPublished(contexts, w, j, d, s);
        ReleasedShowsIt(CommittedWorld(w, j, d), j, s, d, w.clock + w.config.decisionTtl);
      case CommitFailed(j) =>
        CommitPublished(contexts, w, j, d, s);
      case Begin(session, modelId, flag, jobId, result, after) =>
        BeganParts(w, session, jobId, result, after);
        BeginPublished(w.config, contexts(session).(completedV1 := flag), w.memory, session, modelId, jobId, w.clock, after,
                       result, d);
    }
  }

  lemma ReleasedParts(w: World, j: nat)
    ensures Released(w, j).history == w.history
  {
  }

  lemma ReadBackSaves(w: World, s: string, d: Decision)
    requires AnswerFor(w.memory, s) == Decided(d)
    ensures SavesDecision(d) in ReadBackWorld(w, s).outbox
  {
    hide AnswerFor, Shown;
  }

  lemma ReadBackStep(contexts: string -> SessionContext, w: World, n: World, s: string, d: Decision)
    requires StepOf(contexts, w, ReadBack(s), n) && AnswerFor(w.memory, s) == Decided(d)
    ensures SavesDecision(d) in n.outbox
  {
    hide AnswerFor, ReadBackWorld;
    ReadBackSaves(w, s, d);
  }

  lemma RunMemory(contexts: string -> SessionContext, config: Config, worlds: seq<World>, actions: seq<Action>, n: nat)
    requires RunOf(contexts, config, worlds, actions) && n < |worlds|
    ensures MemoryInv(worlds[n].config, contexts, worlds[n].memory)
  {
    hide RunOf, MemoryInv, Driven, HistorySafe, TableSound;
    RunIsSafe(contexts, config, worlds, actions, n);
    assert ProcessSafe(contexts, worlds[n]);
  }

  /**
   Over a whole run: once a decision was published for a session, every poll before it expires is told that
   very decision, and a `complete` call that reads it back hands it to the database, unless the session was
   cancelled or the process restarted in between.
   */
  lemma PublishedIsAnswered(contexts: string -> SessionContext, config: Config, worlds: seq<World>, actions: seq<Action>,
                            i: nat, j: nat, s: string, d: Decision)
    requires RunOf(contexts, config, worlds, actions) && i < j < |worlds| && Undisturbed(actions, i + 1, j, s)
    requires Published(worlds[i], actions[i], worlds[i + 1], s, d)
    requires worlds[j].clock < worlds[i].clock + worlds[i].config.decisionTtl
    ensures AnswerFor(worlds[j].memory, s) == Decided(d)
    ensures j < |actions| && actions[j] == ReadBack(s) ==> SavesDecision(d) in worlds[j + 1].outbox
  {
    hide StepOf, ContextValid, InitialWorld, MemoryInv, Published, Undisturbed, AnswerFor;
    RunMemory(contexts, config, worlds, actions, i);
    assert StepOf(contexts, worlds[i], actions[i], worlds[i + 1]);
    PublicationShows(contexts, worlds[i], actions[i], worlds[i + 1], s, d);
    DecisionStays(contexts, config, worlds, actions, i + 1, j, s);
    DecisionIsAnswered(worlds[j].memory, s, d, worlds[i].clock + worlds[i].config.decisionTtl);
    if j < |actions| && actions[j] == ReadBack(s) {
      assert StepOf(contexts, worlds[j], actions[j], worlds[j + 1]);
      ReadBackStep(contexts, worlds[j], worlds[j + 1], s, d);
    }
  }

  // ----- And nothing else is ever told -----

  lemma CommitMoves(w: World, j: nat, d: Decision, s: string)
    requires j in w.memory.jobs && IsTerminal(CommittedWorld(w, j, d).memory, s)
    ensures Kept(w.memory, CommittedWorld(w, j, d).memory, s)
            || (w.memory.jobs[j].sessionId == s && CommittedWorld(w, j, d).memory.sessions[s].decision == Some(d)
                && |CommittedWorld(w, j, d).history.published| == |w.history.published| + 1)
  {
  }

  lemma AppendMoves(config: Config, ctx: SessionContext, before: Memory, session: string, batch: Batch, now: real,
                    after: Memory, r: Result<AckStatus, ErrorCode>, s: string)
    requires batch.Valid() && Appends(config, ctx, before, session, batch, now, after, r) && IsTerminal(after, s)
    ensures Kept(before, after, s)
  {
    hide Ingests, CheckBatch, Frame.Valid;
    if CheckBatch(ctx, session, batch).None? {
      var record := Opened(before, session, now, config);
      if record.status == Collecting {
        var outcome :| Ingests(ctx, record.buffer, batch, outcome)
                       && Publishes(config, before, session, record, batch, now, outcome, after, r);
      }
    }
  }

  lemma BeginMoves(config: Config, ctx: SessionContext, before: Memory, session: string, modelId: string, jobId: nat,
                   now: real, after: Memory, r: BeginResult, s: string)
    requires Begins(config, ctx, before, session, modelId, jobId, now, after, r) && IsTerminal(after, s)
    ensures Kept(before, after, s) || (s == session && r.DecidedAtOnce?)
  {
    hide Prepare, Frame.Valid, HitsKnown, Enumerates;
  }

  /** A record that is terminal was terminal before, as it is, or this step published its decision. */
  lemma TerminalCame(contexts: string -> SessionContext, w: World, a: Action, n: World, s: string, d: Decision)
    requires StepOf(contexts, w, a, n) && IsTerminal(n.memory, s) && n.memory.sessions[s].decision == Some(d)
    ensures Kept(w.memory, n.memory, s) || Published(w, a, n, s, d)
  {
    hide StepOf, Kept, Published, IsTerminal;
    if a.Append? || a.Begin? {
      RequestCame(contexts, w, a, n, s, d);
    } else if OfJob(a) {
      JobCame(contexts, w, a, n, s, d);
    } else {
      OtherCame(contexts, w, a, n, s);
    }
  }

  lemma RequestCame(contexts: string -> SessionContext, w: World, a: Action, n: World, s: string, d: Decision)
    requires StepOf(contexts, w, a, n) && IsTerminal(n.memory, s) && n.memory.sessions[s].decision == Some(d)
    requires a.Append? || a.Begin?
    ensures Kept(w.memory, n.memory, s) || Published(w, a, n, s, d)
  {
    hide Appends, Begins, BeganWorld, CommittedWorld, StartFailedWorld, StartedTask, SavedWorld, ClaimedWorld, Delivered,
      CancelledWorld, ReadBackWorld, Remembering, OrphansFailed, InflightFailed, Retained, OrphanCalls, Decides, Active,
      Kept;
    match a {
      case Append(session, batch, flag, ack, after) =>
        RememberingParts(w, after, {});
        AppendMoves(w.config, contexts(session).(completedV1 := flag), w.memory, session, batch, w.clock, after, ack, s);
      case Begin(session, modelId, flag, jobId, result, after) =>
        BeganParts(w, session, jobId, result, after);
        BeginMoves(w.config, contexts(session).(completedV1 := flag), w.memory, session, modelId, jobId, w.clock, after,
                   result, s);
    }
  }

  lemma JobCame(contexts: string -> SessionContext, w: World, a: Action, n: World, s: string, d: Decision)
    requires StepOf(contexts, w, a, n) && IsTerminal(n.memory, s) && n.memory.sessions[s].decision == Some(d) && OfJob(a)
    ensures Kept(w.memory, n.memory, s) || Published(w, a, n, s, d)
  {
    hide Appends, Begins, BeganWorld, CommittedWorld, StartFailedWorld, StartedTask, SavedWorld, ClaimedWorld, Delivered,
      CancelledWorld, ReadBackWorld, Remembering, OrphansFailed, InflightFailed, Retained, OrphanCalls, Decides, Active;
    match a {
      case Save(j, ending) => SavedParts(w, j, ending);
      case Claim(j, ending) => ClaimedParts(w, j, ending);
      case Submit(_, _) =>
      case StartFailed(j) => StartFailedParts(w, j);
      case CommitFailed(j) => CommitMoves(w, j, w.calls[j].decision, s);
      case TaskStarts(j) => StartedParts(w, j);
      case TaskReplies(j, reply) => CommitMoves(w, j, reply, s);
      case TaskCancelled(_) =>
      case ClearJob(_) =>
    }
  }

  lemma OtherCame(contexts: string -> SessionContext, w: World, a: Action, n: World, s: string)
    requires StepOf(contexts, w, a, n) && IsTerminal(n.memory, s) && !OfJob(a) && !a.Append? && !a.Begin?
    ensures Kept(w.memory, n.memory, s)
  {
    hide Appends, Begins, BeganWorld, CommittedWorld, StartFailedWorld, StartedTask, SavedWorld, ClaimedWorld, Delivered,
      CancelledWorld, ReadBackWorld, Remembering, OrphansFailed, InflightFailed, Retained, OrphanCalls, Decides, Active;
    match a {
      case CancelSession(session) => CancelledParts(w, session);
      case Sweep => RememberingParts(w, Lapsed(w.memory, w.clock), OrphanCalls(w.memory, w.clock));
      case ReadBack(session) => ReadBackParts(w, session);
      case Deliver(call, _) => DeliveredParts(w, call);
      case _ =>
    }
  }

  /** Over a whole run: a decision that a poll is told was published for that session by an earlier step. */
  lemma {:induction false} AnsweredWasPublished(contexts: string -> SessionContext, config: Config, worlds: seq<World>,
                                                actions: seq<Action>, j: nat, s: string, d: Decision) returns (i: nat)
    requires RunOf(contexts, config, worlds, actions) && j < |worlds|
    requires AnswerFor(worlds[j].memory, s) == Decided(d)
    ensures i < j && Published(worlds[i], actions[i], worlds[i + 1], s, d)
    ensures forall k :: i < k <= j ==> Kept(worlds[k].memory, worlds[j].memory, s)
  {
    hide StepOf, ContextValid, InitialWorld, MemoryInv, Published, AnswerFor;
    RunMemory(contexts, config, worlds, actions, j);
    AnswersByStatus(worlds[j].config, contexts, worlds[j].memory, s);
    if j == 0 {
      NoSessions(config, worlds[0]);
    } else {
      assert StepOf(contexts, worlds[j - 1], actions[j - 1], worlds[j]);
      TerminalCame(contexts, worlds[j - 1], actions[j - 1], worlds[j], s, d);
      if Kept(worlds[j - 1].memory, worlds[j].memory, s) {
        SameAnswer(worlds[j - 1].memory, worlds[j].memory, s);
        i := AnsweredWasPublished(contexts, config, worlds, actions, j - 1, s, d);
      } else {
        i := j - 1;
      }
    }
  }

  lemma SameAnswer(a: Memory, b: Memory, s: string)
    requires Kept(a, b, s)
    ensures AnswerFor(a, s) == AnswerFor(b, s)
  {
  }
}
