/** The transactions that move a run along: zomega/jobs.py, zomega/outbox.py,
    cancel_run of zomega/api.py and _reconcile_run of zomega/cli.py. */
module RunBlocks {
  import opened Rows
  import opened Tables
  import opened Pricing
  import opened Billing

  const AMBIGUOUS: string := "AMBIGUOUS_PROVIDER_STATE"
  const BUDGET_EXHAUSTED: string := "BUDGET_EXHAUSTED"
  const EXPIRED: string := "RESERVATION_EXPIRED"
  const OPERATOR_REFUNDED: string := "OPERATOR_REFUNDED_AMBIGUOUS"
  const OPERATOR_SETTLED: string := "OPERATOR_SETTLED_AMBIGUOUS"

  function WithRun(db: DB, run: nat, r: Run): DB
    requires run < |db.runs|
  {
    db.(runs := db.runs[run := r])
  }

  /** The skills a run executes, in order; None is the KeyError of an unknown agent. */
  function Workflow(c: Catalog, r: Run): Option<seq<string>> {
    if r.skill.Some? then Some([r.skill.value])
    else if r.agent in c.agents then Some(c.agents[r.agent])
    else None
  }

  predicate HasInFlight(db: DB, run: nat) {
    exists key :: key in db.executions && key.0 == run && db.executions[key].InFlight?
  }

  /** execute_run's opening block; the flag says whether the worker goes on. On a RUNNING run with a
      RUNNING checkpoint the block never commits: it writes evidence through a second session, whose
      foreign key needs the run row that the block itself holds FOR UPDATE. */
  function Begin(db: DB, run: nat): Outcome<(DB, bool)> {
    if run >= |db.runs| then RolledBack(NotFound)
    else
      var r := db.runs[run];
      if r.status !in {Queued, Running} then Committed((db, false))
      else if r.status == Running && HasInFlight(db, run) then
        RolledBack(WaitsForItself)
      else
        var started := if r.startedAt.None? then Some(db.now) else r.startedAt;
        Committed((WithRun(db, run, r.(status := Running, startedAt := started)), true))
  }

  datatype Prepared =
    | Replay(answer: Answer, charged: int)   // a PASS checkpoint
    | Ambiguous                              // a RUNNING checkpoint
    | Fresh                                  // this worker inserted the row
    | Duplicate                              // a unique constraint aborted the insert

  /** _prepare_execution. When `raced`, the SELECT ran before a competing insert committed. */
  function Prepare(db: DB, run: nat, sequenceNo: nat, skill: string, raced: bool): (DB, Prepared) {
    var key := (run, sequenceNo);
    if key in db.executions then
      if raced then (db, Duplicate)
      else
        match db.executions[key]
        case Completed(_, answer, charged) => (db, Replay(answer, charged))
        case InFlight(_) => (db, Ambiguous)
    else if exists k :: k in db.executions && k.0 == run && db.executions[k].skill == skill then (db, Duplicate)
    else (db.(executions := db.executions[key := InFlight(skill)]), Fresh)
  }

  /** The block that turns a checkpoint into PASS. */
  function Checkpoint(db: DB, run: nat, sequenceNo: nat, answer: Answer, charge: int): DB {
    var key := (run, sequenceNo);
    if key !in db.executions then db
    else db.(executions := db.executions[key := Completed(db.executions[key].skill, answer, charge)])
  }

  /** The values one of the closing blocks writes to a run. */
  datatype Closing =
    | Passed(total: int, steps: seq<Step>, tokensIn: int, tokensOut: int)
    | OutOfBudget(total: int, steps: seq<Step>)
    | CancelHonoured(total: int, steps: seq<Step>)
    | Failed(code: string)
    | BlockedAmbiguous
    | OperatorRefunded
    | OperatorSettled(charge: int)

  function Closed(r: Run, w: Closing): Run {
    match w
    case Passed(total, steps, _, _) => r.(status := Pass, charged := total, result := Some(steps))
    case OutOfBudget(total, steps) =>
      r.(status := Partial, error := Some(BUDGET_EXHAUSTED), charged := total, result := Some(steps))
    case CancelHonoured(total, steps) =>
      r.(status := Cancelled, cancelRequested := true, charged := total, result := Some(steps))
    case Failed(code) => r.(status := Fail, error := Some(code))
    case BlockedAmbiguous => r.(status := Blocked, error := Some(AMBIGUOUS))
    case OperatorRefunded => r.(status := Fail, error := Some(OPERATOR_REFUNDED))
    case OperatorSettled(charge) => r.(status := Partial, error := Some(OPERATOR_SETTLED), charged := charge)
  }

  function Close(db: DB, run: nat, w: Closing): DB {
    if run >= |db.runs| then db
    else
      var closed := WithRun(db, run, Closed(db.runs[run], w));
      if w.Passed? then closed.(usage := db.usage + [UsageEvent(run, w.tokensIn, w.tokensOut)]) else closed
  }

  /** cancel_run's block; the flag says whether a refund follows. */
  function RequestCancel(db: DB, run: nat, tenant: nat): Outcome<(DB, bool)> {
    if run >= |db.runs| || db.runs[run].tenant != tenant then RolledBack(NotFound)
    else
      var r := db.runs[run];
      if r.status in {Pass, Fail, Partial, Cancelled, Blocked} then Committed((db, false))
      else if r.status in {PendingDispatch, Queued} then
        Committed((WithRun(db, run, r.(status := Cancelled, cancelRequested := true)), true))
      else
        Committed((WithRun(db, run, r.(status := CancelRequested, cancelRequested := true)), false))
  }

  /** The reaper's second block. */
  function Expire(db: DB, run: nat): DB {
    if run < |db.runs| && db.runs[run].status in {PendingDispatch, Queued}
    then WithRun(db, run, db.runs[run].(status := Fail, error := Some(EXPIRED)))
    else db
  }

  function FindEvent(db: DB, run: nat): Option<nat> {
    IndexOf(db.outbox, (e: OutboxEvent) => e.run == run)
  }

  function FindPendingEvent(db: DB, run: nat): Option<nat> {
    IndexOf(db.outbox, (e: OutboxEvent) => e.run == run && !e.dispatched)
  }

  function Power2(n: nat): nat {
    if n == 0 then 1 else 2 * Power2(n - 1)
  }

  /** Seconds until the next attempt: 2, 4, 8, ... capped at 2 to the 8th. */
  function Backoff(attempts: nat): nat {
    var delay := Power2(if attempts <= 8 then attempts else 8);
    if delay <= 300 then delay else 300
  }

  /** dispatch_run's block after an enqueue that failed. */
  function DispatchFailed(db: DB, run: nat): DB {
    var found := FindEvent(db, run);
    if found.None? then db
    else
      var e := db.outbox[found.value];
      db.(outbox := db.outbox[found.value :=
                        e.(attempts := e.attempts + 1, availableAt := db.now + Backoff(e.attempts + 1))])
  }

  /** dispatch_run's block after an enqueue that succeeded. */
  function Dispatched(db: DB, run: nat): DB {
    var found := FindEvent(db, run);
    if found.None? then db
    else
      var marked := db.(outbox := db.outbox[found.value := db.outbox[found.value].(dispatched := true)]);
      if run < |db.runs| && db.runs[run].status == PendingDispatch
      then WithRun(marked, run, db.runs[run].(status := Queued))
      else marked
  }

  /** The rows reservation_reaper selects. */
  predicate Reapable(db: DB, run: nat) {
    var found := FindReservation(db.books, run);
    && run < |db.runs|
    && found.Some?
    && db.books.reservations[found.value].status == Open
    && db.books.reservations[found.value].expiresAt < db.now
    && db.runs[run].status in {PendingDispatch, Queued, Fail, Cancelled}
  }

  /** The checks _reconcile_run makes before it writes. */
  predicate Reconcilable(db: DB, run: nat) {
    var found := FindReservation(db.books, run);
    && run < |db.runs|
    && found.Some?
    && db.books.reservations[found.value].status == Open
    && db.runs[run].status == Blocked
    && db.runs[run].error == Some(AMBIGUOUS)
  }
}
