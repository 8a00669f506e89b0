/** A limit of the protocol: holds that nothing in the system ever closes. execute_run takes up only
    QUEUED and RUNNING runs (zomega/jobs.py:110) and hangs on a RUNNING one with a RUNNING checkpoint
    (zomega/jobs.py:122), the reaper skips RUNNING and CANCEL_REQUESTED (zomega/jobs.py:232), the operator
    may only reconcile BLOCKED runs (zomega/cli.py:26), and a job whose worker raised is not delivered
    again. */
module Stranding {
  import opened Tables
  import opened Pricing
  import opened Billing
  import opened RunBlocks
  import opened Transactions
  import opened Consistency
  import opened Machine
  import opened Reachability
  import opened Executor
  import opened Isolation

  /** An actor that has nothing in hand for this run. */
  predicate Idle(a: Actor, run: nat) {
    match a
    case Worker(r, pc) => r == run ==> pc.Starting? || pc.Hanging? || pc.Finished?
    case Dispatcher(_, _) => true
    case Canceller(r, _, pc) => r == run ==> !pc.RefundingCancelled?
    case Reaper(queue, _) => run !in queue
    case Operator(r, _, pc) => r == run ==> pc.Checking? || pc.OperatorOver?
  }

  /** An actor that may yet start the run's execution, or have a job delivered for it. */
  predicate Serves(a: Actor, run: nat) {
    a == Worker(run, Starting) || a == Dispatcher(run, Enqueuing)
  }

  ghost predicate Pending(db: DB, run: nat) {
    && run < |db.runs| && run < |db.books.reservations|
    && db.runs[run].status in {Running, CancelRequested}
    && db.books.reservations[run].status == Open
  }

  ghost predicate Sent(db: DB, run: nat) {
    run < |db.outbox| && db.outbox[run].dispatched
  }

  /** Nobody will start the run: its job is done with and no other will be sent. */
  ghost predicate Unserved(s: Sys, run: nat) {
    Sent(s.db, run) && run !in s.jobs && forall a :: a in s.actors ==> !Serves(a, run)
  }

  /** An open hold of a run that is executing or being cancelled, with nobody at work on it, and that
      no new worker can take up: it is CANCEL_REQUESTED, or a checkpoint is in flight, or no worker comes. */
  ghost predicate Stranded(s: Sys, run: nat) {
    && Consistent(s.db) && Pending(s.db, run)
    && (forall a :: a in s.actors ==> Idle(a, run))
    && (s.db.runs[run].status == CancelRequested || HasInFlight(s.db, run) || Unserved(s, run))
  }

  /** What every step leaves of a stranded run. */
  ghost predicate Still(db: DB, db': DB, run: nat) {
    && Pending(db, run) && Pending(db', run)
    && (db.runs[run].status == CancelRequested ==> db'.runs[run].status == CancelRequested)
    && (HasInFlight(db, run) ==> HasInFlight(db', run))
  }

  lemma OthersKeepPending(c: Catalog, db: DB, txn: Txn, run: nat)
    requires Consistent(db) && Pending(db, run) && LeavesAlone(db, txn, run)
    ensures Still(db, Apply(c, db, txn), run)
  {
    OthersLeaveRun(c, db, txn, run);
    SameInFlight(db, Apply(c, db, txn), run);
    hide Consistent, Apply, UsageOf, HasInFlight;
  }

  // ----- a run that no worker will come for -----

  lemma DispatchedIsNotPending(db: DB, run: nat)
    requires Aligned(db)
    ensures Sent(db, run) ==> FindPendingEvent(db, run).None?
  {
  }

  /** Nobody comes to serve a run whose event is dispatched and whose job is done with. */
  lemma NobodyComes(c: Catalog, db: DB, a: Actor, choice: Choice, run: nat)
    requires Aligned(db) && Sent(db, run) && !Serves(a, run)
    ensures !Serves(StepActor(c, db, a, choice).1, run) && run !in Sending(a, choice)
  {
    hide Apply;
    DispatchedIsNotPending(db, run);
    hide FindPendingEvent;
  }

  lemma ActKeepsUnserved(c: Catalog, s: Sys, i: nat, choice: Choice, run: nat)
    requires Aligned(s.db) && Unserved(s, run) && i < |s.actors|
    ensures Unserved(Acted(c, s, i, choice), run)
  {
    hide Aligned, Apply, StepActor, ActorTxn;
    var a := s.actors[i];
    assert a in s.actors;
    NobodyComes(c, s.db, a, choice, run);
    StepIsTransaction(c, s.db, a, choice);
    DispatchedStays(c, s.db, ActorTxn(c, s.db, a, choice), run);
  }

  lemma EventKeepsUnserved(c: Catalog, s: Sys, e: Event, run: nat)
    requires Aligned(s.db) && Unserved(s, run)
    ensures Unserved(Do(c, s, e), run)
  {
    hide Aligned, Apply, Acted, Waits;
    match e
    case Client(txn) => if IsClient(txn) { DispatchedStays(c, s.db, txn, run); }
    case Act(i, choice) => if i < |s.actors| { ActKeepsUnserved(c, s, i, choice, run); }
    case _ =>
  }

  // ----- each actor -----

  ghost predicate Harmless(c: Catalog, db: DB, a: Actor, choice: Choice, run: nat) {
    var next := StepActor(c, db, a, choice);
    Still(db, next.0, run) && Idle(next.1, run)
  }

  /** A worker on this run that is about to begin, unless it would execute the run. */
  predicate WouldNotExecute(db: DB, a: Actor, run: nat) {
    a == Worker(run, Starting) && run < |db.runs| && db.runs[run].status == Running ==> HasInFlight(db, run)
  }

  lemma WorkerIsHarmless(c: Catalog, db: DB, r: nat, pc: Pc, choice: Choice, run: nat)
    requires Consistent(db) && Pending(db, run) && Idle(Worker(r, pc), run) && WouldNotExecute(db, Worker(r, pc), run)
    ensures Harmless(c, db, Worker(r, pc), choice, run)
  {
    hide Consistent, Apply, HasInFlight;
    if r == run {
      WaitingWorkerStops(c, db, run, pc, choice);
    } else if !choice.Raise? {
      OthersKeepPending(c, db, WorkerTxn(c, db, r, pc), run);
      hide NextPc;
    }
  }

  lemma WaitingWorkerStops(c: Catalog, db: DB, run: nat, pc: Pc, choice: Choice)
    requires Pending(db, run) && (pc.Starting? || Over(pc)) && WouldNotExecute(db, Worker(run, pc), run)
    ensures StepWorker(c, db, run, pc, choice).0 == db && Over(StepWorker(c, db, run, pc, choice).1)
  {
    hide HasInFlight;
  }

  lemma DispatcherIsHarmless(c: Catalog, db: DB, r: nat, pc: DispatchPc, choice: Choice, run: nat)
    requires Consistent(db) && Pending(db, run)
    ensures Harmless(c, db, Dispatcher(r, pc), choice, run)
  {
    OthersKeepPending(c, db, DispatchedTxn(r), run);
    OthersKeepPending(c, db, DispatchFailedTxn(r), run);
    hide Consistent, FindPendingEvent, Apply, HasInFlight;
  }

  lemma CancellerIsHarmless(c: Catalog, db: DB, r: nat, t: nat, pc: CancelPc, choice: Choice, run: nat)
    requires Consistent(db) && Pending(db, run) && Idle(Canceller(r, t, pc), run)
    ensures Harmless(c, db, Canceller(r, t, pc), choice, run)
  {
    RequestKeepsPending(c, db, t, run);
    hide Consistent, Apply, HasInFlight, Still, RequestCancel;
    if pc.RefundingCancelled? {
      OthersKeepPending(c, db, RefundTxn(r), run);
    } else if pc.Requesting? && r != run {
      OthersKeepPending(c, db, CancelTxn(r, t), run);
    } else {
      StaysStill(db, run);
    }
  }

  lemma RequestKeepsPending(c: Catalog, db: DB, t: nat, run: nat)
    requires Pending(db, run)
    ensures Still(db, Apply(c, db, CancelTxn(run, t)), run)
    ensures RequestCancel(db, run, t).Committed? ==> !RequestCancel(db, run, t).value.1
  {
    SameInFlight(db, Apply(c, db, CancelTxn(run, t)), run);
    hide HasInFlight;
  }

  lemma StaysStill(db: DB, run: nat)
    requires Pending(db, run)
    ensures Still(db, db, run)
  {
  }

  lemma ReaperIsHarmless(c: Catalog, db: DB, queue: seq<nat>, pc: ReapPc, choice: Choice, run: nat)
    requires Consistent(db) && Pending(db, run) && Idle(Reaper(queue, pc), run)
    ensures Harmless(c, db, Reaper(queue, pc), choice, run)
  {
    hide Consistent, Apply, RefundRun, FindReservation, HasInFlight, Still;
    StaysStill(db, run);
    if queue != [] {
      assert queue[0] in queue;
      OthersKeepPending(c, db, RefundTxn(queue[0]), run);
      OthersKeepPending(c, db, ExpireTxn(queue[0]), run);
      assert forall r :: r in queue[1..] ==> r in queue;
    }
  }

  lemma OperatorIsHarmless(c: Catalog, db: DB, r: nat, action: Action, pc: OperatorPc, choice: Choice, run: nat)
    requires Consistent(db) && Pending(db, run) && Idle(Operator(r, action, pc), run)
    ensures Harmless(c, db, Operator(r, action, pc), choice, run)
  {
    hide Consistent, Apply, RefundRun, SettleRun, FindReservation, HasInFlight;
    if r != run && pc.ClosingReservation? {
      OthersKeepPending(c, db, RefundTxn(r), run);
      if action.SettleIt? && action.charge.Some? {
        OthersKeepPending(c, db, SettleTxn(r, action.charge.value), run);
      }
    } else if r != run && pc.Writing? {
      OthersKeepPending(c, db, OperatorTxn(r, action), run);
    }
  }

  function OperatorTxn(run: nat, action: Action): Txn {
    CloseTxn(run,
             if action.SettleIt? && action.charge.Some? then OperatorSettled(action.charge.value) else OperatorRefunded)
  }

  lemma ActorIsHarmless(c: Catalog, db: DB, a: Actor, choice: Choice, run: nat)
    requires Consistent(db) && Pending(db, run) && Idle(a, run) && WouldNotExecute(db, a, run)
    ensures Harmless(c, db, a, choice, run)
  {
    hide Consistent, Pending, Idle, Harmless;
    match a
    case Worker(r, pc) => WorkerIsHarmless(c, db, r, pc, choice, run);
    case Dispatcher(r, pc) => DispatcherIsHarmless(c, db, r, pc, choice, run);
    case Canceller(r, t, pc) => CancellerIsHarmless(c, db, r, t, pc, choice, run);
    case Reaper(queue, pc) => ReaperIsHarmless(c, db, queue, pc, choice, run);
    case Operator(r, action, pc) => OperatorIsHarmless(c, db, r, action, pc, choice, run);
  }

  // ----- the system -----

  lemma ClientKeepsStranded(c: Catalog, s: Sys, txn: Txn, run: nat)
    requires Stranded(s, run) && IsClient(txn)
    ensures Stranded(s.(db := Apply(c, s.db, txn)), run)
  {
    ApplyKeeps(c, s.db, txn);
    OthersKeepPending(c, s.db, txn, run);
    hide Consistent, Pending, Apply, HasInFlight;
    if Unserved(s, run) {
      DispatchedStays(c, s.db, txn, run);
    }
  }

  lemma StrandedWorkersStop(s: Sys, a: Actor, run: nat)
    requires Stranded(s, run) && a in s.actors
    ensures WouldNotExecute(s.db, a, run)
  {
    hide Consistent, HasInFlight;
  }

  lemma ActKeepsStranded(c: Catalog, s: Sys, i: nat, choice: Choice, run: nat)
    requires Stranded(s, run) && i < |s.actors|
    ensures Stranded(Acted(c, s, i, choice), run)
  {
    var a := s.actors[i];
    assert a in s.actors && Aligned(s.db) && Pending(s.db, run);
    hide Consistent, Aligned, Apply, StepActor, HasInFlight, Unserved, Idle;
    StrandedWorkersStop(s, a, run);
    ActorIsHarmless(c, s.db, a, choice, run);
    StepIsTransaction(c, s.db, a, choice);
    ApplyKeeps(c, s.db, ActorTxn(c, s.db, a, choice));
    if Unserved(s, run) {
      ActKeepsUnserved(c, s, i, choice, run);
    }
  }

  lemma EventKeepsStranded(c: Catalog, s: Sys, e: Event, run: nat)
    requires Stranded(s, run)
    ensures Stranded(Do(c, s, e), run)
  {
    hide Consistent, Pending, Apply, StepActor, HasInFlight;
    match e
    case Client(txn) => if IsClient(txn) { ClientKeepsStranded(c, s, txn, run); }
    case Act(i, choice) => if i < |s.actors| { ActKeepsStranded(c, s, i, choice, run); }
    case _ =>
  }

  /** Once stranded, a run keeps its hold open whatever happens: retries, cancellations, reaper passes,
      operator actions, new requests, crashes. */
  lemma {:induction false} StrandedForever(c: Catalog, s: Sys, events: seq<Event>, run: nat)
    requires Stranded(s, run)
    ensures Stranded(After(c, s, events), run)
    decreases |events|
  {
    hide Stranded;
    if |events| > 0 {
      StrandedForever(c, s, events[..|events| - 1], run);
      EventKeepsStranded(c, After(c, s, events[..|events| - 1]), events[|events| - 1], run);
    }
  }

  // ----- how a run is stranded -----

  lemma RequestActs(c: Catalog, s: Sys, run: nat, canceller: nat)
    requires run < |s.db.runs| && canceller < |s.actors| && Worker(run, Hanging) !in s.actors
    requires s.actors[canceller] == Canceller(run, s.db.runs[run].tenant, Requesting)
    requires var result := RequestCancel(s.db, run, s.db.runs[run].tenant); result.Committed? && !result.value.1
    ensures var asked := Do(c, s, Act(canceller, Proceed));
            && asked.db == Apply(c, s.db, CancelTxn(run, s.db.runs[run].tenant))
            && asked.actors == s.actors[canceller := Canceller(run, s.db.runs[run].tenant, CancelOver)]
  {
    hide Apply, RequestCancel;
  }

  /** Its only worker crashes after a cancellation request. */
  lemma CancelThenCrashStrands(c: Catalog, s: Sys, run: nat, worker: nat, canceller: nat)
    requires Consistent(s.db) && run < |s.db.runs| && s.db.runs[run].status == Running
    requires s.db.books.reservations[run].status == Open
    requires worker < |s.actors| && s.actors[worker].Worker? && Worker(run, Hanging) !in s.actors
    requires canceller < |s.actors| && s.actors[canceller] == Canceller(run, s.db.runs[run].tenant, Requesting)
    requires forall i :: 0 <= i < |s.actors| && i != worker ==> Idle(s.actors[i], run)
    ensures Stranded(Do(c, Do(c, s, Act(canceller, Proceed)), Crash(worker)), run)
  {
    ApplyKeeps(c, s.db, CancelTxn(run, s.db.runs[run].tenant));
    RequestIsPending(c, s.db, run);
    RequestActs(c, s, run, canceller);
    hide Consistent, Pending, Apply, RequestCancel, HasInFlight, Acted, Waits;
    var crashed := Do(c, Do(c, s, Act(canceller, Proceed)), Crash(worker));
    forall a | a in crashed.actors ensures Idle(a, run) {
      var i :| 0 <= i < |crashed.actors| && crashed.actors[i] == a;
    }
  }

  lemma RequestIsPending(c: Catalog, db: DB, run: nat)
    requires Aligned(db) && run < |db.runs| && db.runs[run].status == Running
    requires db.books.reservations[run].status == Open
    ensures var db' := Apply(c, db, CancelTxn(run, db.runs[run].tenant));
            Pending(db', run) && db'.runs[run].status == CancelRequested
    ensures RequestCancel(db, run, db.runs[run].tenant).Committed?
    ensures !RequestCancel(db, run, db.runs[run].tenant).value.1
  {
  }

  /** Its only worker crashes with a checkpoint in flight. */
  lemma CrashInFlightStrands(c: Catalog, s: Sys, run: nat, worker: nat)
    requires Consistent(s.db) && Pending(s.db, run) && HasInFlight(s.db, run)
    requires worker < |s.actors| && s.actors[worker].Worker?
    requires forall i :: 0 <= i < |s.actors| && i != worker ==> Idle(s.actors[i], run)
    ensures Stranded(Do(c, s, Crash(worker)), run)
  {
    hide Consistent, HasInFlight;
    var crashed := Do(c, s, Crash(worker));
    forall a | a in crashed.actors ensures Idle(a, run) {
      var i :| 0 <= i < |crashed.actors| && crashed.actors[i] == a;
    }
  }
}
