/**
 Where the records of a run come from: which step put a session's record there, which accepted batches its
 buffer consists of, and which completion left it pending without a job.
 */
module Provenance {
  import opened Common
  import opened Observations
  import opened Ingestion
  import opened Snapshots
  import opened SourceEvidence
  import opened Gate
  import opened Completion
  import opened SessionMemory
  import opened JobRows
  import opened Protocol
  import C = Confluence

  // ----- One step, one session -----

  /** The session's record is the one it had. */
  predicate Kept(before: Memory, after: Memory, s: string) {
    s in before.sessions && s in after.sessions && after.sessions[s] == before.sessions[s]
  }

  /** The session's record was opened on the spot. */
  predicate Fresh(after: Memory, s: string) {
    && s in after.sessions && after.sessions[s].status == Collecting && after.sessions[s].buffer == EmptyBuffer
    && after.sessions[s].activeJobId.None?
  }

  /** The session's buffer took in one more batch. */
  ghost predicate TookIn(ctx: SessionContext, before: Memory, after: Memory, s: string, batch: Batch,
                         ack: Result<AckStatus, ErrorCode>, now: real, config: Config)
    requires batch.Valid()
  {
    var record := Opened(before, s, now, config);
    && ack.Ok? && record.status == Collecting && s in after.sessions && after.sessions[s].status == Collecting
    && (forall k :: k in record.buffer.observations ==> record.buffer.observations[k].Valid())
    && CheckBatch(ctx, s, batch).None? && Ingests(ctx, record.buffer, batch, Ok((after.sessions[s].buffer, ack.value)))
  }

  lemma AppendRecords(config: Config, ctx: SessionContext, before: Memory, session: string, batch: Batch, now: real,
                      after: Memory, r: Result<AckStatus, ErrorCode>, s: string)
    requires batch.Valid() && Appends(config, ctx, before, session, batch, now, after, r) && s in after.sessions
    ensures Kept(before, after, s)
            || (s == session && (Fresh(after, s) || TookIn(ctx, before, after, s, batch, r, now, config)))
  {
    hide Ingests, CheckBatch, Frame.Valid;
    if CheckBatch(ctx, session, batch).None? {
      var record := Opened(before, session, now, config);
      if record.status == Collecting {
        var outcome :| Ingests(ctx, record.buffer, batch, outcome)
                       && Publishes(config, before, session, record, batch, now, outcome, after, r);
      }
    }
  }

  lemma BeginRecords(config: Config, ctx: SessionContext, before: Memory, session: string, modelId: string, jobId: nat,
                     now: real, after: Memory, r: BeginResult, s: string)
    requires Begins(config, ctx, before, session, modelId, jobId, now, after, r) && s in after.sessions
    ensures Kept(before, after, s)
            || (s == session && (Fresh(after, s) || after.sessions[s].status == Terminal || r.Started? || r == Escaped))
    ensures s == session && (r.Started? || r == Escaped) ==> after.sessions[s].status == Pending
    ensures s == session && r.Started? ==> after.sessions[s].activeJobId.Some?
  {
    hide Prepare, Frame.Valid, HitsKnown, Enumerates;
  }

  lemma CommitRecords(w: World, j: nat, d: Decision, s: string)
    requires j in w.memory.jobs && s in CommittedWorld(w, j, d).memory.sessions
    ensures Kept(w.memory, CommittedWorld(w, j, d).memory, s) || CommittedWorld(w, j, d).memory.sessions[s].status == Terminal
  {
  }

  /** Where a record of the next world comes from. */
  ghost predicate Came(contexts: string -> SessionContext, w: World, a: Action, n: World, s: string) {
    || Kept(w.memory, n.memory, s)
    || (a.Append? && a.session == s && a.batch.Valid()
        && TookIn(contexts(s).(completedV1 := a.completedV1), w.memory, n.memory, s, a.batch, a.ack, w.clock, w.config))
    || Fresh(n.memory, s)
    || (s in n.memory.sessions && n.memory.sessions[s].status == Terminal)
    || (a.Begin? && a.session == s && s in n.memory.sessions && n.memory.sessions[s].status == Pending
        && (a.result == Escaped || n.memory.sessions[s].activeJobId.Some?))
  }

  lemma RecordsMove(contexts: string -> SessionContext, w: World, a: Action, n: World, s: string)
    requires StepOf(contexts, w, a, n) && s in n.memory.sessions
    ensures Came(contexts, w, a, n, s)
  {
    hide StepOf, Came;
    if a.Append? || a.Begin? {
      RequestMoves(contexts, w, a, n, s);
    } else if OfJob(a) {
      JobMoves(contexts, w, a, n, s);
    } else {
      OtherMoves(contexts, w, a, n, s);
    }
  }

  lemma RequestMoves(contexts: string -> SessionContext, w: World, a: Action, n: World, s: string)
    requires StepOf(contexts, w, a, n) && s in n.memory.sessions && (a.Append? || a.Begin?)
    ensures Came(contexts, w, a, n, s)
  {
    hide Appends, Begins, BeganWorld, CommittedWorld, StartFailedWorld, StartedTask, SavedWorld, ClaimedWorld, Delivered,
      CancelledWorld, ReadBackWorld, Remembering, OrphansFailed, InflightFailed, Retained, OrphanCalls, Decides, Active,
      TookIn, Fresh;
    match a {
      case Append(session, batch, flag, ack, after) =>
        RememberingParts(w, after, {});
        AppendRecords(w.config, contexts(session).(completedV1 := flag), w.memory, session, batch, w.clock, after, ack, s);
      case Begin(session, modelId, flag, jobId, result, after) =>
        BeganParts(w, session, jobId, result, after);
        BeginRecords(w.config, contexts(session).(completedV1 := flag), w.memory, session, modelId, jobId, w.clock, after,
                     result, s);
    }
  }

  lemma JobMoves(contexts: string -> SessionContext, w: World, a: Action, n: World, s: string)
    requires StepOf(contexts, w, a, n) && s in n.memory.sessions && OfJob(a)
    ensures Came(contexts, w, a, n, s)
  {
    hide Appends, Begins, BeganWorld, CommittedWorld, StartFailedWorld, StartedTask, SavedWorld, ClaimedWorld, Delivered,
      CancelledWorld, ReadBackWorld, Remembering, OrphansFailed, InflightFailed, Retained, OrphanCalls, Decides, Active,
      TookIn, Fresh;
    match a {
      case Save(j, ending) => SavedParts(w, j, ending);
      case Claim(j, ending) => ClaimedParts(w, j, ending);
      case Submit(_, _) =>
      case StartFailed(j) => StartFailedParts(w, j);
      case CommitFailed(j) => CommitRecords(w, j, w.calls[j].decision, s);
      case TaskStarts(j) => StartedParts(w, j);
      case TaskReplies(j, d) => CommitRecords(w, j, d, s);
      case TaskCancelled(_) =>
      case ClearJob(_) =>
    }
  }

  lemma OtherMoves(contexts: string -> SessionContext, w: World, a: Action, n: World, s: string)
    requires StepOf(contexts, w, a, n) && s in n.memory.sessions && !OfJob(a) && !a.Append? && !a.Begin?
    ensures Came(contexts, w, a, n, s)
  {
    hide Appends, Begins, BeganWorld, CommittedWorld, StartFailedWorld, StartedTask, SavedWorld, ClaimedWorld, Delivered,
      CancelledWorld, ReadBackWorld, Remembering, OrphansFailed, InflightFailed, Retained, OrphanCalls, Decides, Active,
      TookIn, Fresh;
    match a {
      case CancelSession(session) => CancelledParts(w, session);
      case Sweep => RememberingParts(w, Lapsed(w.memory, w.clock), OrphanCalls(w.memory, w.clock));
      case ReadBack(session) => ReadBackParts(w, session);
      case Deliver(call, _) => DeliveredParts(w, call);
      case _ =>
    }
  }

  // ----- Buffers are made of accepted batches -----

  predicate IsAccept(a: Action, s: string) {
    a.Append? && a.session == s && a.ack.Ok?
  }

  /** The batches of a session that the first `n` steps accepted. */
  ghost function AcceptedBatches(actions: seq<Action>, n: nat, s: string): set<Batch>
    requires n <= |actions|
  {
    set i | 0 <= i < n && IsAccept(actions[i], s) :: actions[i].batch
  }

  lemma AcceptedGrow(actions: seq<Action>, n: nat, s: string)
    requires n < |actions|
    ensures AcceptedBatches(actions, n, s) <= AcceptedBatches(actions, n + 1, s)
    ensures IsAccept(actions[n], s) ==> actions[n].batch in AcceptedBatches(actions, n + 1, s)
  {
  }

  /** The buffer is exactly what some of the accepted batches determine. */
  ghost predicate MadeOf(b: Buffer, accepted: set<Batch>) {
    exists batches: set<Batch> :: batches <= accepted && C.Represents(b, batches)
  }

  lemma EmptyMadeOf(accepted: set<Batch>)
    ensures MadeOf(EmptyBuffer, accepted)
  {
    assert C.Represents(EmptyBuffer, {});
  }

  lemma MoreMadeOf(b: Buffer, few: set<Batch>, more: set<Batch>)
    requires MadeOf(b, few) && few <= more
    ensures MadeOf(b, more)
  {
    hide C.Represents;
  }

  lemma TakenMadeOf(ctx: SessionContext, b: Buffer, batch: Batch, after: Buffer, status: AckStatus, few: set<Batch>,
                    more: set<Batch>)
    requires MadeOf(b, few) && few <= more && batch in more && batch.Valid()
    requires forall k :: k in b.observations ==> b.observations[k].Valid()
    requires Ingests(ctx, b, batch, Ok((after, status)))
    ensures MadeOf(after, more)
  {
    hide C.Represents, Ingests, Frame.Valid;
    var batches: set<Batch> :| batches <= few && C.Represents(b, batches);
    C.IngestRepresents(ctx, b, batches, batch, after, status);
    assert batches + {batch} <= more;
  }

  /** In every world of every run, a collecting session's buffer is made of batches that the run accepted for it. */
  lemma {:induction false} BuffersAreAccepted(contexts: string -> SessionContext, config: Config, worlds: seq<World>,
                                              actions: seq<Action>, n: nat, s: string)
    requires RunOf(contexts, config, worlds, actions) && n < |worlds|
    requires s in worlds[n].memory.sessions && worlds[n].memory.sessions[s].status == Collecting
    ensures MadeOf(worlds[n].memory.sessions[s].buffer, AcceptedBatches(actions, n, s))
  {
    hide StepOf, ContextValid, MadeOf, AcceptedBatches, Came, InitialWorld;
    if n == 0 {
      NoSessions(config, worlds[0]);
    } else {
      var w, a := worlds[n - 1], actions[n - 1];
      assert StepOf(contexts, w, a, worlds[n]);
      RecordsMove(contexts, w, a, worlds[n], s);
      AcceptedGrow(actions, n - 1, s);
      if s in w.memory.sessions && w.memory.sessions[s].status == Collecting {
        BuffersAreAccepted(contexts, config, worlds, actions, n - 1, s);
      }
      BufferCame(contexts, w, a, worlds[n], s, AcceptedBatches(actions, n - 1, s), AcceptedBatches(actions, n, s));
    }
  }

  lemma NoSessions(config: Config, w: World)
    requires w == InitialWorld(config, w.clock)
    ensures w.memory.sessions == map[]
  {
  }

  lemma BufferCame(contexts: string -> SessionContext, w: World, a: Action, n: World, s: string, few: set<Batch>,
                   more: set<Batch>)
    requires Came(contexts, w, a, n, s) && s in n.memory.sessions && n.memory.sessions[s].status == Collecting
    requires few <= more && (IsAccept(a, s) ==> a.batch in more)
    requires s in w.memory.sessions && w.memory.sessions[s].status == Collecting ==> MadeOf(w.memory.sessions[s].buffer, few)
    ensures MadeOf(n.memory.sessions[s].buffer, more)
  {
    hide MadeOf, Ingests, CheckBatch, Frame.Valid;
    EmptyMadeOf(few);
    EmptyMadeOf(more);
    if Kept(w.memory, n.memory, s) {
      MoreMadeOf(n.memory.sessions[s].buffer, few, more);
    } else if !Fresh(n.memory, s) {
      var b := Opened(w.memory, s, w.clock, w.config).buffer;
      TakenMadeOf(contexts(s).(completedV1 := a.completedV1), b, a.batch, n.memory.sessions[s].buffer, a.ack.value, few, more);
    }
  }

  // ----- Escapes, incarnation by incarnation -----

  /** Step `k` was a completion of `s` that escaped, and the record it left has stood unchanged up to world `n`. */
  ghost predicate EscapedAt(worlds: seq<World>, actions: seq<Action>, k: nat, n: nat, s: string)
    requires |worlds| == |actions| + 1 && k < n < |worlds|
  {
    && actions[k].Begin? && actions[k].session == s && actions[k].result == Escaped
    && forall m :: k < m <= n ==>
      s in worlds[m].memory.sessions && s in worlds[n].memory.sessions
      && worlds[m].memory.sessions[s] == worlds[n].memory.sessions[s]
  }

  /** A session that is pending without a job is the very one that an escaping completion left behind. */
  lemma {:induction false} StuckHasEscaped(contexts: string -> SessionContext, config: Config, worlds: seq<World>,
                                           actions: seq<Action>, n: nat, s: string) returns (k: nat)
    requires RunOf(contexts, config, worlds, actions) && n < |worlds|
    requires s in worlds[n].memory.sessions && worlds[n].memory.sessions[s].status == Pending
    requires worlds[n].memory.sessions[s].activeJobId.None?
    ensures k < n && EscapedAt(worlds, actions, k, n, s)
  {
    hide StepOf, ContextValid, InitialWorld, TookIn;
    if n == 0 {
      NoSessions(config, worlds[0]);
    } else {
      assert StepOf(contexts, worlds[n - 1], actions[n - 1], worlds[n]);
      RecordsMove(contexts, worlds[n - 1], actions[n - 1], worlds[n], s);
      PendingCame(contexts, worlds[n - 1], actions[n - 1], worlds[n], s);
      if Kept(worlds[n - 1].memory, worlds[n].memory, s) {
        k := StuckHasEscaped(contexts, config, worlds, actions, n - 1, s);
      } else {
        k := n - 1;
      }
    }
  }

  lemma PendingCame(contexts: string -> SessionContext, w: World, a: Action, n: World, s: string)
    requires Came(contexts, w, a, n, s) && s in n.memory.sessions && n.memory.sessions[s].status == Pending
    requires n.memory.sessions[s].activeJobId.None?
    ensures Kept(w.memory, n.memory, s) || (a.Begin? && a.session == s && a.result == Escaped)
  {
    hide Ingests, CheckBatch, Frame.Valid;
  }
}
