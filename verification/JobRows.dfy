/**
 The durable half of the recommendation protocol (`v2_postgres.py`): one row per decision request, moved
 only by guarded statements. A statement runs on one snapshot, as one step.
 */
module JobRows {
  import opened Common
  import opened Gate

  datatype RowStatus = RowPending | RowRunning | RowCompleted | RowFailed | RowCancelled | RowInsufficient {
    /** `status IN ('pending', 'running')` */
    predicate InFlight() {
      this == RowPending || this == RowRunning
    }
  }

  datatype FailureCode = ServiceRestart | OrphanCleanup | CancelledByGuest | JobStartFailed | DecisionFailure(reason: DecisionReason)

  datatype Row = Row(sessionId: string, status: RowStatus, product: Option<string>, reason: Option<DecisionReason>,
                     reasonCodes: seq<ReasonCode>, tendency: Option<Tendency>, failure: Option<FailureCode>,
                     updatedAt: real, lockVersion: nat)
  {
    /** What the row says about the recommendation is untouched. */
    predicate SameOutcome(row: Row) {
      product == row.product && reason == row.reason && reasonCodes == row.reasonCodes && tendency == row.tendency
      && failure == row.failure
    }

    /** The row shows no recommendation. */
    predicate Empty() {
      product.None? && reasonCodes == [] && tendency.None?
    }
  }

  type Rows = map<Acceptance, Row>

  // ----- The statements -----

  function PendingRow(session: string, now: real): Row {
    Row(session, RowPending, None, None, [], None, None, now, 0)
  }

  /** What every failing update writes. */
  function FailedRow(row: Row, failure: FailureCode, now: real): Row {
    Row(row.sessionId, RowFailed, None, Some(ModelUnavailable), [], None, Some(failure), now, row.lockVersion + 1)
  }

  function CancelledRow(row: Row, now: real): Row {
    Row(row.sessionId, RowCancelled, None, None, [], None, Some(CancelledByGuest), now, row.lockVersion + 1)
  }

  function StatusOf(d: Decision): RowStatus {
    match d.status
    case Completed => RowCompleted
    case InsufficientData => RowInsufficient
    case Failed => RowFailed
  }

  function DecidedRow(session: string, d: Decision, now: real, lockVersion: nat): Row {
    Row(session, StatusOf(d), d.selected, Some(d.reason), d.reasonCodes, d.tendency,
        if d.status == Completed then None else Some(DecisionFailure(d.reason)), now, lockVersion)
  }

  /** The row failed for this reason and shows no recommendation. */
  predicate FailedAs(row: Row, failure: FailureCode) {
    row.status == RowFailed && row.Empty() && row.failure == Some(failure) && row.reason == Some(ModelUnavailable)
  }

  /** The row shows what the decision says, and ends as the decision ends. */
  predicate Records(row: Row, d: Decision) {
    && row.product == d.selected && row.reason == Some(d.reason) && row.reasonCodes == d.reasonCodes
    && row.tendency == d.tendency
    && (row.status == RowCompleted <==> d.status == Completed)
    && (row.status == RowInsufficient <==> d.status == InsufficientData)
    && (row.status == RowFailed <==> d.status == DecisionStatus.Failed)
    && row.failure == if d.status == Completed then None else Some(DecisionFailure(d.reason))
  }

  /** The partial unique index on in-flight rows of one session. */
  predicate SessionBusy(rows: Rows, session: string) {
    exists id :: id in rows && rows[id].status.InFlight() && rows[id].sessionId == session
  }

  /** `save_pending`: inserts if nothing conflicts, and answers whether the row by that id is the caller's. */
  function SavedPending(rows: Rows, id: Acceptance, session: string, now: real): (Rows, bool) {
    if id !in rows && !SessionBusy(rows, session) then (rows[id := PendingRow(session, now)], true)
    else (rows, id in rows && rows[id].sessionId == session)
  }

  function Claimed(rows: Rows, id: Acceptance, now: real): (Rows, bool) {
    if id in rows && rows[id].status == RowPending then
      (rows[id := rows[id].(status := RowRunning, updatedAt := now, lockVersion := rows[id].lockVersion + 1)], true)
    else (rows, false)
  }

  /**
   `save_decision`: an insert and an update on one snapshot. The insert acts only when there is no row
   yet, the update only on an in-flight row that was there before: never both.
   */
  function SavedDecision(rows: Rows, session: string, d: Decision, now: real): (Rows, bool) {
    var id := d.accepted;
    var inserted := id !in rows;
    var changed := id in rows && rows[id].sessionId == session && rows[id].status.InFlight();
    if inserted then (rows[id := DecidedRow(session, d, now, 0)], true)
    else if changed then (rows[id := DecidedRow(session, d, now, rows[id].lockVersion + 1)], true)
    else (rows, false)
  }

  function MarkedCancelled(rows: Rows, id: Acceptance, now: real): (Rows, bool) {
    if id in rows && rows[id].status.InFlight() then (rows[id := CancelledRow(rows[id], now)], true) else (rows, false)
  }

  function FailedJob(rows: Rows, id: Acceptance, failure: FailureCode, now: real): (Rows, bool) {
    if id in rows && rows[id].status.InFlight() then (rows[id := FailedRow(rows[id], failure, now)], true)
    else (rows, false)
  }

  predicate OrphanedRow(row: Row, orphanSeconds: real, now: real) {
    row.status.InFlight() && row.updatedAt < now - orphanSeconds
  }

  function OrphansFailed(rows: Rows, orphanSeconds: real, now: real): Rows {
    map id | id in rows ::
      if OrphanedRow(rows[id], orphanSeconds, now) then FailedRow(rows[id], OrphanCleanup, now) else rows[id]
  }

  predicate Retired(row: Row, retentionSeconds: real, now: real) {
    !row.status.InFlight() && row.updatedAt < now - retentionSeconds
  }

  function Retained(rows: Rows, retentionSeconds: real, now: real): Rows {
    map id | id in rows && !Retired(rows[id], retentionSeconds, now) :: rows[id]
  }

  function InflightFailed(rows: Rows, now: real): Rows {
    map id | id in rows :: if rows[id].status.InFlight() then FailedRow(rows[id], ServiceRestart, now) else rows[id]
  }

  /** One row was updated in place, for the same session, and its version says so; no other row changed. */
  ghost predicate OnlyRow(before: Rows, after: Rows, id: Acceptance, now: real) {
    && id in before && after.Keys == before.Keys && (forall k :: k in before && k != id ==> after[k] == before[k])
    && after[id].sessionId == before[id].sessionId && after[id].updatedAt == now
    && after[id].lockVersion == before[id].lockVersion + 1
  }

  /** A second claim of a row fails, also when one other statement ran in between. */
  lemma OneClaimWins(rows: Rows, id: Acceptance, now: real, other: Acceptance, session: string, d: Decision, later: real)
    requires Claimed(rows, id, now).1
    ensures var won := Claimed(rows, id, now).0;
      && !Claimed(won, id, later).1
      && !Claimed(SavedPending(won, other, session, later).0, id, later).1
      && !Claimed(SavedDecision(won, session, d, later).0, id, later).1
      && !Claimed(MarkedCancelled(won, other, later).0, id, later).1
  {
  }

  /** A row that was cancelled in time is beyond the reach of every other statement of its job. */
  lemma CancelIsFinal(rows: Rows, id: Acceptance, now: real, session: string, d: Decision, failure: FailureCode, later: real)
    requires MarkedCancelled(rows, id, now).1 && d.accepted == id
    ensures var cancelled := MarkedCancelled(rows, id, now).0;
      && Claimed(cancelled, id, later) == (cancelled, false)
      && SavedDecision(cancelled, session, d, later) == (cancelled, false)
      && FailedJob(cancelled, id, failure, later) == (cancelled, false)
      && MarkedCancelled(cancelled, id, later) == (cancelled, false)
      && SavedPending(cancelled, id, session, later).0 == cancelled
  {
  }

  // ----- The adapter -----

  /** `PostgresDecisionPersistence`, with the table as its connection sees it. */
  class PostgresDecisionPersistence {
    var rows: Rows
    var startupCleanupComplete: bool

    constructor (table: Rows)
      ensures rows == table && !startupCleanupComplete
    {
      rows, startupCleanupComplete := table, false;
    }

    /** `initialize_runtime` up to its readiness answer: intake opens only after in-flight rows were closed. */
    method InitializeRuntime(connected: bool, migrated: bool, cleanupWorks: bool, now: real) returns (intake: bool)
      modifies this
      ensures intake == startupCleanupComplete == (connected && migrated && cleanupWorks)
      ensures rows == if intake then InflightFailed(old(rows), now) else old(rows)
      ensures intake ==> forall id :: id in rows ==> !rows[id].status.InFlight()
      ensures rows.Keys == old(rows).Keys && forall id :: id in rows ==>
                if intake && old(rows)[id].status.InFlight() then FailedAs(rows[id], ServiceRestart)
                else rows[id] == old(rows)[id]
    {
      intake, startupCleanupComplete := false, false;
      if !connected || !migrated || !cleanupWorks {
        return;
      }
      var _ := MarkInflightJobsFailedOnStartup(now);
      intake, startupCleanupComplete := true, true;
    }

    method MarkInflightJobsFailedOnStartup(now: real) returns (count: nat)
      modifies this`rows
      ensures rows == InflightFailed(old(rows), now)
      ensures count == |set id | id in old(rows) && old(rows)[id].status.InFlight()|
    {
      var changed := set id | id in rows && rows[id].status.InFlight();
      count := |changed|;
      rows := map id | id in rows :: if id in changed then FailedRow(rows[id], ServiceRestart, now) else rows[id];
    }

    method SavePending(session: string, id: Acceptance, now: real) returns (ok: bool)
      modifies this`rows
      ensures (rows, ok) == SavedPending(old(rows), id, session, now)
      ensures ok <==> id in rows && rows[id].sessionId == session
      ensures if id in old(rows)
                 || exists k :: k in old(rows) && old(rows)[k].status.InFlight() && old(rows)[k].sessionId == session then
                rows == old(rows)
              else
                rows == old(rows)[id := rows[id]] && rows[id].status == RowPending && rows[id].Empty()
                && rows[id].failure.None? && rows[id].updatedAt == now && rows[id].lockVersion == 0
    {
      var row: Option<Row> := None;
      if id !in rows && !SessionBusy(rows, session) {
        rows := rows[id := PendingRow(session, now)];
        row := Some(rows[id]);
      }
      if row.None? && id in rows {
        row := Some(rows[id]);
      }
      ok := row.Some? && row.value.sessionId == session;
    }

    method ClaimJob(id: Acceptance, now: real) returns (ok: bool)
      modifies this`rows
      ensures ok <==> id in old(rows) && old(rows)[id].status == RowPending
      ensures !ok ==> rows == old(rows)
      ensures ok ==> OnlyRow(old(rows), rows, id, now) && rows[id].status == RowRunning
                     && rows[id].SameOutcome(old(rows)[id])
      ensures (rows, ok) == Claimed(old(rows), id, now)
    {
      ok := id in rows && rows[id].status == RowPending;
      if ok {
        rows := rows[id := rows[id].(status := RowRunning, updatedAt := now, lockVersion := rows[id].lockVersion + 1)];
      }
    }

    method SaveDecision(session: string, d: Decision, now: real) returns (ok: bool)
      modifies this`rows
      ensures (rows, ok) == SavedDecision(old(rows), session, d, now)
      ensures ok <==> d.accepted !in old(rows)
                      || (old(rows)[d.accepted].sessionId == session && old(rows)[d.accepted].status.InFlight())
      ensures !ok ==> rows == old(rows)
      ensures ok ==>
        && rows.Keys == old(rows).Keys + {d.accepted}
        && (forall id :: id in old(rows) && id != d.accepted ==> rows[id] == old(rows)[id])
        && Records(rows[d.accepted], d) && rows[d.accepted].sessionId == session && rows[d.accepted].updatedAt == now
        && rows[d.accepted].lockVersion == if d.accepted in old(rows) then old(rows)[d.accepted].lockVersion + 1 else 0
    {
      var snapshot := rows;
      var count := 0;
      if d.accepted !in snapshot {
        rows := rows[d.accepted := DecidedRow(session, d, now, 0)];
        count := count + 1;
      }
      if d.accepted in snapshot && snapshot[d.accepted].sessionId == session && snapshot[d.accepted].status.InFlight() {
        rows := rows[d.accepted := DecidedRow(session, d, now, snapshot[d.accepted].lockVersion + 1)];
        count := count + 1;
      }
      ok := count == 1;
    }

    method MarkCancelled(id: Acceptance, now: real) returns (ok: bool)
      modifies this`rows
      ensures ok <==> id in old(rows) && old(rows)[id].status.InFlight()
      ensures !ok ==> rows == old(rows)
      ensures ok ==> OnlyRow(old(rows), rows, id, now) && rows[id].status == RowCancelled
                     && rows[id].Empty() && rows[id].failure == Some(CancelledByGuest)
      ensures (rows, ok) == MarkedCancelled(old(rows), id, now)
    {
      ok := id in rows && rows[id].status.InFlight();
      if ok {
        rows := rows[id := CancelledRow(rows[id], now)];
      }
    }

    /** Only the two runtime cleanup codes are accepted; any other raises. */
    method FailJob(id: Acceptance, failure: FailureCode, now: real) returns (r: Result<bool, ()>)
      modifies this`rows
      ensures r.Err? <==> failure != OrphanCleanup && failure != JobStartFailed
      ensures r.Err? ==> rows == old(rows)
      ensures r.Ok? ==> (rows, r.value) == FailedJob(old(rows), id, failure, now)
      ensures r.Ok? ==> (r.value <==> id in old(rows) && old(rows)[id].status.InFlight())
      ensures r.Ok? && !r.value ==> rows == old(rows)
      ensures r.Ok? && r.value ==> OnlyRow(old(rows), rows, id, now) && FailedAs(rows[id], failure)
    {
      if failure != OrphanCleanup && failure != JobStartFailed {
        return Err(());
      }
      var ok := id in rows && rows[id].status.InFlight();
      if ok {
        rows := rows[id := FailedRow(rows[id], failure, now)];
      }
      r := Ok(ok);
    }

    method CleanupOrphanJobs(orphanSeconds: real, now: real) returns (r: Result<nat, ()>)
      modifies this`rows
      ensures r.Err? <==> orphanSeconds <= 0.0
      ensures rows == if r.Err? then old(rows) else OrphansFailed(old(rows), orphanSeconds, now)
      ensures r.Ok? ==> r.value == |set id | id in old(rows) && OrphanedRow(old(rows)[id], orphanSeconds, now)|
      ensures r.Ok? ==> rows.Keys == old(rows).Keys && forall id :: id in rows ==>
                var row := old(rows)[id];
                if row.status.InFlight() && now - row.updatedAt > orphanSeconds then
                  FailedAs(rows[id], OrphanCleanup) && rows[id].sessionId == row.sessionId && rows[id].updatedAt == now
                  && rows[id].lockVersion == row.lockVersion + 1
                else rows[id] == row
    {
      if orphanSeconds <= 0.0 {
        return Err(());
      }
      var changed := set id | id in rows && OrphanedRow(rows[id], orphanSeconds, now);
      rows := map id | id in rows :: if id in changed then FailedRow(rows[id], OrphanCleanup, now) else rows[id];
      r := Ok(|changed|);
    }

    method CleanupRetention(retentionSeconds: real, now: real) returns (r: Result<nat, ()>)
      modifies this`rows
      ensures r.Err? <==> retentionSeconds <= 0.0
      ensures rows == if r.Err? then old(rows) else Retained(old(rows), retentionSeconds, now)
      ensures r.Ok? ==> r.value == |set id | id in old(rows) && Retired(old(rows)[id], retentionSeconds, now)|
      ensures r.Ok? ==> forall id :: id in old(rows) ==>
                (id in rows <==> old(rows)[id].status.InFlight() || now - old(rows)[id].updatedAt <= retentionSeconds)
      ensures forall id :: id in rows ==> id in old(rows) && rows[id] == old(rows)[id]
    {
      if retentionSeconds <= 0.0 {
        return Err(());
      }
      var deleted := set id | id in rows && Retired(rows[id], retentionSeconds, now);
      rows := map id | id in rows && id !in deleted :: rows[id];
      r := Ok(|deleted|);
    }
  }
}
