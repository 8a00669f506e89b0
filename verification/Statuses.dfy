/** Which status changes happen, and which of them the table of zomega/state.py forbids. No writer
    consults that table. */
module Statuses {
  import opened Tables
  import opened Pricing
  import opened Billing
  import opened Admission
  import opened RunBlocks
  import opened Transactions
  import opened Consistency
  import opened Machine
  import opened Protocol

  /** VALID, for the statuses that are ever written. */
  predicate Legal(was: RunStatus, next: RunStatus) {
    match was
    case PendingDispatch => next in {Queued, Cancelled, Fail}
    case Queued => next in {Running, Cancelled, Fail}
    case Running => next in {Pass, Partial, Fail, Blocked, CancelRequested}
    case CancelRequested => next in {Cancelled, Fail, Blocked}
    case _ => false
  }

  /** About to write the run's closing status. */
  predicate Closes(a: Actor, run: nat) {
    match a
    case Worker(r, pc) => r == run && (pc.Concluding? || pc.MarkingFailed? || pc.MarkingBlocked?)
    case Operator(r, _, pc) => r == run && pc.Writing?
    case _ => false
  }

  function ClosingStatus(a: Actor): RunStatus {
    match a
    case Worker(_, Concluding(_, WorkflowDone)) => Pass
    case Worker(_, Concluding(_, NoBudget)) => Partial
    case Worker(_, Concluding(_, CancelSeen)) => Cancelled
    case Worker(_, MarkingBlocked) => Blocked
    case Operator(_, SettleIt(charge), _) => if charge.Some? then Partial else Fail
    case _ => Fail
  }

  /** The status that the run has after an actor's step, by where the actor is and the status before. */
  function StatusAfter(db: DB, a: Actor, choice: Choice, run: nat): RunStatus
    requires run < |db.runs|
  {
    var was := db.runs[run].status;
    if Closes(a, run) then if a.Worker? && choice.Raise? then was else ClosingStatus(a)
    else
      match a
      case Worker(r, Starting) => if r == run && was == Queued && !choice.Raise? then Running else was
      case Dispatcher(r, MarkingDispatched) => if r == run && was == PendingDispatch then Queued else was
      case Canceller(r, t, Requesting) =>
        if r != run || t != db.runs[run].tenant then was
        else if was in {PendingDispatch, Queued} then Cancelled
        else if was == Running then CancelRequested
        else was
      case Reaper(queue, ExpiringHead) =>
        if queue != [] && queue[0] == run && was in {PendingDispatch, Queued} then Fail else was
      case _ => was
  }

  lemma WorkerWrites(c: Catalog, db: DB, r: nat, pc: Pc, choice: Choice, run: nat)
    requires run < |db.runs|
    ensures var next := StepWorker(c, db, r, pc, choice).0;
            |next.runs| == |db.runs| && next.runs[run].status == StatusAfter(db, Worker(r, pc), choice, run)
  {
    hide Apply, NextPc, ChargeFor, SkillAt;
    if !choice.Raise? {
      WorkerTxnWrites(c, db, WorkerTxn(c, db, r, pc), run);
    }
  }

  lemma WorkerTxnWrites(c: Catalog, db: DB, txn: Txn, run: nat)
    requires run < |db.runs|
    requires txn.ReadOnly? || txn.BeginRun? || txn.PrepareStep? || txn.RecordStep? || txn.SettleTxn? || txn.RefundTxn?
             || txn.CloseTxn?
    ensures var next := Apply(c, db, txn);
            && |next.runs| == |db.runs|
            && next.runs[run].status
            == match txn
               case BeginRun(r) => if r == run && db.runs[run].status == Queued then Running else db.runs[run].status
               case CloseTxn(r, w) => if r == run then Closed(db.runs[run], w).status else db.runs[run].status
               case _ => db.runs[run].status
  {
    hide HasInFlight, SettleRun, RefundRun, Closed, Prepare;
    if txn.PrepareStep? {
      PreparingWritesNoRun(db, txn.run, txn.sequenceNo, txn.skillId);
    }
  }

  lemma PreparingWritesNoRun(db: DB, run: nat, k: nat, skill: string)
    ensures Prepare(db, run, k, skill, false).0.runs == db.runs
  {
  }

  lemma DispatcherWrites(c: Catalog, db: DB, r: nat, pc: DispatchPc, choice: Choice, run: nat)
    requires run < |db.runs| && FindEvent(db, run).Some?
    ensures var next := StepDispatcher(c, db, r, pc, choice).0;
            |next.runs| == |db.runs| && next.runs[run].status == StatusAfter(db, Dispatcher(r, pc), choice, run)
  {
    hide FindEvent, FindPendingEvent, Backoff;
  }

  lemma CancellerWrites(c: Catalog, db: DB, r: nat, t: nat, pc: CancelPc, choice: Choice, run: nat)
    requires run < |db.runs|
    ensures var next := StepCanceller(c, db, r, t, pc).0;
            |next.runs| == |db.runs| && next.runs[run].status == StatusAfter(db, Canceller(r, t, pc), choice, run)
  {
    hide RefundRun;
  }

  lemma ReaperWrites(c: Catalog, db: DB, queue: seq<nat>, pc: ReapPc, choice: Choice, run: nat)
    requires run < |db.runs|
    ensures var next := StepReaper(c, db, queue, pc, choice).0;
            |next.runs| == |db.runs| && next.runs[run].status == StatusAfter(db, Reaper(queue, pc), choice, run)
  {
    hide RefundRun, ValidPick;
  }

  lemma OperatorWrites(c: Catalog, db: DB, r: nat, action: Action, pc: OperatorPc, choice: Choice, run: nat)
    requires run < |db.runs|
    ensures var next := StepOperator(c, db, r, action, pc).0;
            |next.runs| == |db.runs| && next.runs[run].status == StatusAfter(db, Operator(r, action, pc), choice, run)
  {
    hide SettleRun, RefundRun, Reconcilable, FindReservation;
  }

  lemma ActorWrites(c: Catalog, db: DB, a: Actor, choice: Choice, run: nat)
    requires run < |db.runs| && FindEvent(db, run).Some?
    ensures var next := StepActor(c, db, a, choice).0;
            |next.runs| == |db.runs| && next.runs[run].status == StatusAfter(db, a, choice, run)
  {
    hide StepWorker, StepDispatcher, StepCanceller, StepReaper, StepOperator, StatusAfter, FindEvent;
    match a
    case Worker(r, pc) => WorkerWrites(c, db, r, pc, choice, run);
    case Dispatcher(r, pc) => DispatcherWrites(c, db, r, pc, choice, run);
    case Canceller(r, t, pc) => CancellerWrites(c, db, r, t, pc, choice, run);
    case Reaper(queue, pc) => ReaperWrites(c, db, queue, pc, choice, run);
    case Operator(r, action, pc) => OperatorWrites(c, db, r, action, pc, choice, run);
  }

  lemma ClientsWrite(c: Catalog, db: DB, txn: Txn, run: nat)
    requires IsClient(txn) && run < |db.runs|
    ensures run < |Apply(c, db, txn).runs| && Apply(c, db, txn).runs[run] == db.runs[run]
  {
    hide AdmissionError, Hold, RequestOf;
    if !txn.AdmitAgent? && !txn.AdmitSkill? {
      OtherClientsLeaveRuns(c, db, txn);
    }
  }

  lemma OwnEventFound(c: Catalog, s: Sys, run: nat)
    requires SysOk(c, s) && run < |s.db.runs|
    ensures FindEvent(s.db, run).Some?
  {
    assert Aligned(s.db) && s.db.outbox[run].run == run;
  }

  /** The acting actor, unless it has to wait. */
  predicate Steps(c: Catalog, s: Sys, e: Event) {
    e.Act? && e.i < |s.actors| && !Waits(c, s, s.actors[e.i], e.choice)
  }

  /** Every event: only an actor's step changes a status, and just so. */
  lemma EventWrites(c: Catalog, s: Sys, e: Event, run: nat)
    requires SysOk(c, s) && run < |s.db.runs|
    ensures var s' := Do(c, s, e);
            run < |s'.db.runs|
            && s'.db.runs[run].status == if Steps(c, s, e) then StatusAfter(s.db, s.actors[e.i], e.choice, run)
                                         else s.db.runs[run].status
  {
    OwnEventFound(c, s, run);
    hide SysOk, Apply, StepActor, StatusAfter, FindEvent, Waits;
    match e
    case Client(txn) => if IsClient(txn) { ClientsWrite(c, s.db, txn, run); }
    case Act(i, choice) =>
      if Steps(c, s, e) {
        ActorWrites(c, s.db, s.actors[i], choice, run);
      }
    case _ =>
  }

  /** A closing write over another closed status, or by a worker that has not seen the cancellation. */
  predicate Overwrites(a: Actor, choice: Choice, was: RunStatus, run: nat) {
    && Closes(a, run) && !(a.Worker? && choice.Raise?)
    && if Ended(was) then ClosingStatus(a) != was
       else was == CancelRequested && ClosingStatus(a) in {Pass, Partial}
  }

  lemma ClosersKnow(c: Catalog, db: DB, a: Actor, run: nat)
    requires run < |db.runs| && Aligned(db) && RunOk(c, db, run) && ActorOk(c, db, a) && Closes(a, run)
    ensures db.runs[run].status in {Running, CancelRequested} || Ended(db.runs[run].status)
    ensures a.Operator? ==> Ended(db.runs[run].status)
    ensures ClosingStatus(a) == Cancelled ==> db.runs[run].status != Running
  {
  }

  lemma WritesAreIllegalExactlyWhen(c: Catalog, db: DB, a: Actor, choice: Choice, run: nat)
    requires run < |db.runs| && Aligned(db) && RunOk(c, db, run) && ActorOk(c, db, a)
    ensures var (was, next) := (db.runs[run].status, StatusAfter(db, a, choice, run));
            next != was && !Legal(was, next) <==> Overwrites(a, choice, was, run)
  {
    if Closes(a, run) {
      ClosersKnow(c, db, a, run);
    }
    hide RunOk, ActorOk, Aligned;
  }

  /** A change is one that the table forbids if and only if it is such a write; every other change that
      ever happens is legal. */
  lemma IllegalExactlyWhen(c: Catalog, s: Sys, e: Event, run: nat)
    requires SysOk(c, s) && run < |s.db.runs|
    ensures var (s', was) := (Do(c, s, e), s.db.runs[run].status);
            && run < |s'.db.runs|
            && (s'.db.runs[run].status != was && !Legal(was, s'.db.runs[run].status)
                <==> Steps(c, s, e) && Overwrites(s.actors[e.i], e.choice, was, run))
  {
    hide StatusAfter, Do, Overwrites, Legal, Waits;
    EventWrites(c, s, e, run);
    if Steps(c, s, e) {
      SysKnows(c, s, e.i, run);
      WritesAreIllegalExactlyWhen(c, s.db, s.actors[e.i], e.choice, run);
    }
  }

  lemma SysKnows(c: Catalog, s: Sys, i: nat, run: nat)
    requires SysOk(c, s) && run < |s.db.runs| && i < |s.actors|
    ensures Aligned(s.db) && RunOk(c, s.db, run) && ActorOk(c, s.db, s.actors[i])
  {
  }
}
