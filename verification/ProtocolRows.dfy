/**
 The durable side of the protocol's invariant: terminal rows are final, each generation of a row is
 claimed at most once, and a claimed row is never older than its job.
 */
module ProtocolRows {
  import opened Ingestion
  import opened Gate
  import opened SessionMemory
  import opened JobRows
  import opened Protocol

  // ----- Terminal rows are final -----

  /** Rows are only ever settled: an in-flight row may become terminal, a terminal one stays as it is. */
  ghost predicate Settles(a: Rows, b: Rows) {
    && (forall id :: id in b ==> id in a && b[id].sessionId == a[id].sessionId)
    && (forall id :: id in b && b[id] != a[id] ==> a[id].status.InFlight() && !b[id].status.InFlight())
  }

  /** Terminal rows of `a` are in `b`, unchanged. */
  ghost predicate FinalKept(a: Rows, b: Rows) {
    forall id :: id in a && !a[id].status.InFlight() ==> id in b && b[id] == a[id]
  }

  lemma FailKeeps(rows: Rows, id: Acceptance, failure: FailureCode, now: real)
    ensures Settles(rows, FailedJob(rows, id, failure, now).0) && FinalKept(rows, FailedJob(rows, id, failure, now).0)
  {
  }

  lemma CancelKeeps(rows: Rows, id: Acceptance, now: real)
    ensures Settles(rows, MarkedCancelled(rows, id, now).0) && FinalKept(rows, MarkedCancelled(rows, id, now).0)
  {
  }

  lemma OrphansKeep(rows: Rows, seconds: real, now: real)
    ensures Settles(rows, OrphansFailed(rows, seconds, now)) && FinalKept(rows, OrphansFailed(rows, seconds, now))
  {
  }

  lemma InflightKeeps(rows: Rows, now: real)
    ensures Settles(rows, InflightFailed(rows, now)) && FinalKept(rows, InflightFailed(rows, now))
  {
  }

  lemma RetentionSettles(rows: Rows, seconds: real, now: real)
    ensures Settles(rows, Retained(rows, seconds, now))
    ensures forall id :: id in rows && id !in Retained(rows, seconds, now) ==> Retired(rows[id], seconds, now)
  {
  }

  lemma DecisionKeeps(rows: Rows, session: string, d: Decision, now: real)
    ensures FinalKept(rows, SavedDecision(rows, session, d, now).0)
    ensures d.accepted in rows ==> Settles(rows, SavedDecision(rows, session, d, now).0)
    ensures d.accepted !in rows ==>
      SavedDecision(rows, session, d, now).0 == rows[d.accepted := DecidedRow(session, d, now, 0)]
  {
  }

  lemma PendingKeeps(rows: Rows, id: Acceptance, session: string, now: real)
    ensures FinalKept(rows, SavedPending(rows, id, session, now).0)
  {
  }

  lemma ClaimKeeps(rows: Rows, id: Acceptance, now: real)
    ensures FinalKept(rows, JobRows.Claimed(rows, id, now).0)
  {
  }

  /** The steps that run a statement on the table. */
  predicate TouchesRows(a: Action) {
    a.Save? || a.Claim? || a.Deliver? || a.CleanOrphans? || a.CloseInflight? || a.CleanRetention?
  }

  lemma SaveMoves(w: World, j: nat, ending: Ending)
    requires j in w.memory.jobs
    ensures FinalKept(w.rows, SavedWorld(w, j, ending).rows)
  {
    hide SavedPending, FinalKept;
    PendingKeeps(w.rows, Owner(w, j), Owner(w, j).sessionId, w.clock);
    SameFinal(w.rows);
  }

  lemma ClaimMoves(w: World, j: nat, ending: Ending)
    requires j in w.memory.jobs
    ensures FinalKept(w.rows, ClaimedWorld(w, j, ending).rows)
  {
    hide JobRows.Claimed, FinalKept;
    ClaimKeeps(w.rows, Owner(w, j), w.clock);
    SameFinal(w.rows);
  }

  lemma DeliverMoves(w: World, call: DbCall)
    ensures FinalKept(w.rows, Delivered(w, call).rows)
  {
    hide SavedDecision, FailedJob, MarkedCancelled, FinalKept;
    match call {
      case SavesDecision(d) => DecisionKeeps(w.rows, d.accepted.sessionId, d, w.clock);
      case FailsJob(id, failure) => FailKeeps(w.rows, id, failure, w.clock);
      case MarksCancelled(id) => CancelKeeps(w.rows, id, w.clock);
    }
  }

  lemma SameFinal(rows: Rows)
    ensures FinalKept(rows, rows)
  {
  }

  /** No step but retention touches a terminal row. */
  lemma RowsMove(contexts: string -> SessionContext, w: World, a: Action)
    requires Guard(w, a) && a != CleanRetention
    ensures FinalKept(w.rows, Apply(contexts, w, a).rows)
  {
    hide FinalKept, SavedWorld, ClaimedWorld, Delivered, BeganWorld, CommittedWorld, StartFailedWorld, StartedTask,
      Remembering, Released, OrphansFailed, InflightFailed, CancelledWorld, ReadBackWorld;
    if !TouchesRows(a) {
      TableUntouched(contexts, w, a);
      SameFinal(w.rows);
    } else if a.Save? {
      SaveMoves(w, a.jobId, a.ending);
    } else if a.Claim? {
      ClaimMoves(w, a.jobId, a.ending);
    } else if a.Deliver? {
      DeliverMoves(w, a.call);
    } else if a.CleanOrphans? {
      OrphansKeep(w.rows, w.config.orphanSeconds, w.clock);
    } else {
      InflightKeeps(w.rows, w.clock);
    }
  }

  /** A terminal row never changes, whatever step is taken, until retention deletes it after its time. */
  lemma TerminalRowIsFinal(contexts: string -> SessionContext, w: World, a: Action, id: Acceptance)
    requires Guard(w, a) && id in w.rows && !w.rows[id].status.InFlight()
    ensures var rows := Apply(contexts, w, a).rows;
      || (id in rows && rows[id] == w.rows[id])
      || (a == CleanRetention && id !in rows && Retired(w.rows[id], w.config.retentionSeconds, w.clock))
  {
    hide SavedWorld, ClaimedWorld, Delivered, BeganWorld, CommittedWorld, StartFailedWorld, StartedTask,
      Remembering, Released, OrphansFailed, InflightFailed, CancelledWorld, ReadBackWorld;
    if a != CleanRetention {
      RowsMove(contexts, w, a);
    }
  }

  /** The same over a whole run: unless retention deletes it on the way, the row stays what it is. */
  lemma {:induction false} TerminalRowStays(contexts: string -> SessionContext, worlds: seq<World>, actions: seq<Action>,
                                            i: nat, k: nat, id: Acceptance)
    requires |worlds| == |actions| + 1 && i <= k < |worlds|
    requires forall n :: 0 <= n < |actions| ==>
      Guard(worlds[n], actions[n]) && worlds[n + 1] == Apply(contexts, worlds[n], actions[n])
    requires id in worlds[i].rows && !worlds[i].rows[id].status.InFlight()
    requires forall n :: i < n <= k ==> id in worlds[n].rows
    ensures worlds[k].rows[id] == worlds[i].rows[id]
    decreases k - i
  {
    hide Guard, Apply;
    if i < k {
      TerminalRowStays(contexts, worlds, actions, i, k - 1, id);
      TerminalRowIsFinal(contexts, worlds[k - 1], actions[k - 1], id);
    }
  }

  // ----- Generations and claims -----

  function Gen(generations: map<Acceptance, nat>, id: Acceptance): nat {
    if id in generations then generations[id] else 0
  }

  /** What the history says of one row. */
  ghost predicate RowSound(id: Acceptance, row: Row, generations: map<Acceptance, nat>,
                           claims: map<(Acceptance, nat), nat>, begun: map<nat, real>)
  {
    && row.sessionId == id.sessionId && id in generations
    && (row.status == RowPending ==> (id, generations[id]) !in claims)
    && (row.status == RowRunning ==>
      && (id, generations[id]) in claims && claims[(id, generations[id])] in begun
      && begun[claims[(id, generations[id])]] <= row.updatedAt)
  }

  /** Every row belongs to a generation; a pending one is unclaimed, a running one no older than its claimer. */
  ghost predicate RowsSound(rows: Rows, generations: map<Acceptance, nat>, claims: map<(Acceptance, nat), nat>,
                            begun: map<nat, real>)
  {
    && (forall id :: id in rows ==> RowSound(id, rows[id], generations, claims, begun))
    && (forall c :: c in claims ==> ClaimSound(c, claims[c], generations, begun))
  }

  ghost predicate ClaimSound(c: (Acceptance, nat), j: nat, generations: map<Acceptance, nat>, begun: map<nat, real>) {
    c.1 <= Gen(generations, c.0) && j in begun
  }

  lemma SettleSound(a: Rows, b: Rows, generations: map<Acceptance, nat>, claims: map<(Acceptance, nat), nat>,
                    begun: map<nat, real>)
    requires RowsSound(a, generations, claims, begun) && Settles(a, b)
    ensures RowsSound(b, generations, claims, begun)
  {
    hide ClaimSound;
    forall id | id in b ensures RowSound(id, b[id], generations, claims, begun) {
      assert RowSound(id, a[id], generations, claims, begun);
    }
  }

  lemma InsertSound(rows: Rows, id: Acceptance, row: Row, generations: map<Acceptance, nat>,
                    claims: map<(Acceptance, nat), nat>, begun: map<nat, real>)
    requires RowsSound(rows, generations, claims, begun) && id !in rows
    requires row.sessionId == id.sessionId && row.status != RowRunning
    ensures RowsSound(rows[id := row], generations[id := Gen(generations, id) + 1], claims, begun)
  {
    var next := generations[id := Gen(generations, id) + 1];
    forall c | c in claims && c.0 == id ensures c.1 < next[id] {
      assert ClaimSound(c, claims[c], generations, begun);
    }
    forall other | other in rows ensures RowSound(other, rows[other], next, claims, begun) {
      assert RowSound(other, rows[other], generations, claims, begun);
    }
    forall c | c in claims ensures ClaimSound(c, claims[c], next, begun) {
      assert ClaimSound(c, claims[c], generations, begun);
    }
  }

  lemma ClaimKeepsSound(rows: Rows, id: Acceptance, j: nat, now: real, generations: map<Acceptance, nat>,
                        claims: map<(Acceptance, nat), nat>, begun: map<nat, real>)
    requires RowsSound(rows, generations, claims, begun) && JobRows.Claimed(rows, id, now).1
    requires j in begun && begun[j] <= now
    ensures id in generations && (id, generations[id]) !in claims
    ensures RowsSound(JobRows.Claimed(rows, id, now).0, generations, claims[(id, generations[id]) := j], begun)
  {
    var next := JobRows.Claimed(rows, id, now).0;
    assert RowSound(id, rows[id], generations, claims, begun);
    var claims' := claims[(id, generations[id]) := j];
    forall other | other in next ensures RowSound(other, next[other], generations, claims', begun) {
      assert RowSound(other, rows[other], generations, claims, begun);
    }
    forall c | c in claims' ensures ClaimSound(c, claims'[c], generations, begun) {
      if c in claims {
        assert ClaimSound(c, claims[c], generations, begun);
      }
    }
  }

  lemma LaterJobSound(rows: Rows, generations: map<Acceptance, nat>, claims: map<(Acceptance, nat), nat>,
                      begun: map<nat, real>, j: nat, now: real)
    requires RowsSound(rows, generations, claims, begun) && j !in begun
    ensures RowsSound(rows, generations, claims, begun[j := now])
  {
    forall id | id in rows ensures RowSound(id, rows[id], generations, claims, begun[j := now]) {
      assert RowSound(id, rows[id], generations, claims, begun);
    }
    forall c | c in claims ensures ClaimSound(c, claims[c], generations, begun[j := now]) {
      assert ClaimSound(c, claims[c], generations, begun);
    }
  }

  ghost predicate TableSound(w: World) {
    RowsSound(w.rows, w.history.generations, w.history.claims, w.history.begun)
  }

  /** Jobs that may still call the database are known, with a begin time that has passed. */
  ghost predicate JobsKnown(w: World) {
    forall j :: j in w.memory.jobs ==> j in w.history.begun && w.history.begun[j] <= w.clock
  }

  lemma TabledSound(w: World, rows: Rows, id: Acceptance)
    requires TableSound(w)
    requires id in w.rows ==> Settles(w.rows, rows)
    requires id !in w.rows ==>
      rows == w.rows || (id in rows && rows == w.rows[id := rows[id]] && rows[id].sessionId == id.sessionId
                         && rows[id].status != RowRunning)
    ensures TableSound(Tabled(w, rows, id))
  {
    hide Settles, RowsSound;
    if id in w.rows {
      SettleSound(w.rows, rows, w.history.generations, w.history.claims, w.history.begun);
    } else if id in rows {
      InsertSound(w.rows, id, rows[id], w.history.generations, w.history.claims, w.history.begun);
    }
  }

  lemma SameSettles(rows: Rows)
    ensures Settles(rows, rows)
  {
  }

  lemma SaveSound(w: World, j: nat, ending: Ending)
    requires TableSound(w) && j in w.memory.jobs
    ensures TableSound(SavedWorld(w, j, ending))
    ensures SavedWorld(w, j, ending).history.claims == w.history.claims
  {
    hide Settles, RowsSound;
    var id := Owner(w, j);
    var rows := SavedPending(w.rows, id, id.sessionId, w.clock).0;
    SameSettles(w.rows);
    TabledSound(w, rows, id);
  }

  lemma ClaimStepSound(w: World, j: nat, ending: Ending)
    requires TableSound(w) && JobsKnown(w) && j in w.memory.jobs
    ensures TableSound(ClaimedWorld(w, j, ending))
    ensures forall c :: c in w.history.claims ==>
      c in ClaimedWorld(w, j, ending).history.claims && ClaimedWorld(w, j, ending).history.claims[c] == w.history.claims[c]
  {
    hide RowsSound, JobRows.Claimed;
    var id := Owner(w, j);
    if JobRows.Claimed(w.rows, id, w.clock).1 {
      ClaimKeepsSound(w.rows, id, j, w.clock, w.history.generations, w.history.claims, w.history.begun);
    }
  }

  lemma DeliverSound(w: World, call: DbCall)
    requires TableSound(w)
    ensures TableSound(Delivered(w, call)) && Delivered(w, call).history.claims == w.history.claims
  {
    hide Settles, RowsSound, SavedDecision, FailedJob, MarkedCancelled;
    match call {
      case SavesDecision(d) =>
        DecisionKeeps(w.rows, d.accepted.sessionId, d, w.clock);
        TabledSound(w, SavedDecision(w.rows, d.accepted.sessionId, d, w.clock).0, d.accepted);
      case FailsJob(id, failure) =>
        FailKeeps(w.rows, id, failure, w.clock);
        SettleSound(w.rows, FailedJob(w.rows, id, failure, w.clock).0, w.history.generations, w.history.claims,
                    w.history.begun);
      case MarksCancelled(id) =>
        CancelKeeps(w.rows, id, w.clock);
        SettleSound(w.rows, MarkedCancelled(w.rows, id, w.clock).0, w.history.generations, w.history.claims,
                    w.history.begun);
    }
  }

  /** Claims are never withdrawn or handed on. */
  ghost predicate ClaimsKept(a: World, b: World) {
    forall c :: c in a.history.claims ==> c in b.history.claims && b.history.claims[c] == a.history.claims[c]
  }

  lemma TableUntouched(contexts: string -> SessionContext, w: World, a: Action)
    requires Guard(w, a) && !TouchesRows(a)
    ensures var n := Apply(contexts, w, a);
      && n.rows == w.rows && n.history.generations == w.history.generations && n.history.claims == w.history.claims
      && (n.history.begun == w.history.begun
          || (a.Begin? && n.history.begun == w.history.begun[a.jobId := w.clock]))
  {
    hide BeganWorld, CommittedWorld, StartFailedWorld, StartedTask, Remembering, CancelledWorld, ReadBackWorld,
      SessionMemory.Committed, Cancelled, Lapsed, Shown, OrphanCalls, AnswerFor, Active;
    match a {
      case Append(_, _, _, _, after) => RememberingParts(w, after, {});
      case Begin(session, _, _, jobId, result, after) => BeganParts(w, session, jobId, result, after);
      case StartFailed(j) => StartFailedParts(w, j);
      case CommitFailed(j) => CommittedParts(w, j, w.calls[j].decision);
      case TaskStarts(j) => StartedParts(w, j);
      case TaskReplies(j, d) => CommittedParts(w, j, d);
      case CancelSession(session) => CancelledParts(w, session);
      case Sweep => RememberingParts(w, Lapsed(w.memory, w.clock), OrphanCalls(w.memory, w.clock));
      case ReadBack(session) => ReadBackParts(w, session);
      case _ =>
    }
  }

  /** Every step keeps the table sound and every claim in place. */
  lemma StepKeepsTable(contexts: string -> SessionContext, w: World, a: Action)
    requires Guard(w, a) && TableSound(w) && JobsKnown(w)
    ensures TableSound(Apply(contexts, w, a)) && ClaimsKept(w, Apply(contexts, w, a))
  {
    hide SavedWorld, ClaimedWorld, Delivered, BeganWorld, CommittedWorld, StartFailedWorld, StartedTask, Remembering,
      Released, OrphansFailed, InflightFailed, Retained, CancelledWorld, ReadBackWorld, RowsSound, JobsKnown, Settles;
    if !TouchesRows(a) {
      TableUntouched(contexts, w, a);
      if a.Begin? {
        LaterJobSound(w.rows, w.history.generations, w.history.claims, w.history.begun, a.jobId, w.clock);
      }
    } else if a.Save? {
      SaveSound(w, a.jobId, a.ending);
    } else if a.Claim? {
      ClaimStepSound(w, a.jobId, a.ending);
    } else if a.Deliver? {
      DeliverSound(w, a.call);
    } else if a.CleanOrphans? {
      OrphansKeep(w.rows, w.config.orphanSeconds, w.clock);
      SettleSound(w.rows, OrphansFailed(w.rows, w.config.orphanSeconds, w.clock), w.history.generations, w.history.claims,
                  w.history.begun);
    } else if a.CloseInflight? {
      InflightKeeps(w.rows, w.clock);
      SettleSound(w.rows, InflightFailed(w.rows, w.clock), w.history.generations, w.history.claims, w.history.begun);
    } else {
      RetentionSettles(w.rows, w.config.retentionSeconds, w.clock);
      SettleSound(w.rows, Retained(w.rows, w.config.retentionSeconds, w.clock), w.history.generations, w.history.claims,
                  w.history.begun);
    }
  }
}
