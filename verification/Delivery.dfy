/** Jobs and the runs they are for: what reaches Redis, when a delivered job is dropped, and exactly
    which runs can still be executed. */
module Delivery {
  import opened Rows
  import opened Tables
  import opened Pricing
  import opened Billing
  import opened Marketplace
  import opened Admission
  import opened RunBlocks
  import opened Transactions
  import opened Consistency
  import opened Machine
  import opened Protocol
  import opened Reachability
  import opened Stranding
  import opened Releasing
  import Statuses

  // ----- a dispatched run has a job -----

  /** Whatever is marked dispatched, or about to be, was handed to Redis. */
  ghost predicate Accounted(s: Sys) {
    && s.jobs <= s.sent
    && (forall run :: Sent(s.db, run) ==> run in s.sent)
    && (forall a :: a in s.actors && a.Dispatcher? && a.dispatch.MarkingDispatched? ==> a.run in s.sent)
  }

  lemma OnlyDispatchMarks(c: Catalog, db: DB, txn: Txn, run: nat)
    requires Aligned(db) && Sent(Apply(c, db, txn), run) && txn != DispatchedTxn(run)
    ensures Sent(db, run)
  {
    hide ProcessPayment, UpsertPublisher, PublishSkill, CreateListing, PurchaseListing, AdmissionError, Hold;
    hide SettleRun, RefundRun, RequestOf, HasInFlight;
    if IsClient(txn) && !txn.AdmitAgent? && !txn.AdmitSkill? {
      OtherClientsLeaveRuns(c, db, txn);
    }
  }

  lemma ActKeepsAccounted(c: Catalog, s: Sys, i: nat, choice: Choice)
    requires Aligned(s.db) && Accounted(s) && i < |s.actors|
    ensures Accounted(Acted(c, s, i, choice))
  {
    hide Aligned, Apply, StepActor, ActorTxn;
    var a := s.actors[i];
    var s' := Acted(c, s, i, choice);
    assert a in s.actors;
    StepIsTransaction(c, s.db, a, choice);
    MarkersHaveSent(c, s.db, a, choice);
    forall run | Sent(s'.db, run) ensures run in s'.sent {
      if ActorTxn(c, s.db, a, choice) != DispatchedTxn(run) {
        OnlyDispatchMarks(c, s.db, ActorTxn(c, s.db, a, choice), run);
      }
    }
    forall b | b in s'.actors && b.Dispatcher? && b.dispatch.MarkingDispatched? ensures b.run in s'.sent {
      var j :| 0 <= j < |s'.actors| && s'.actors[j] == b;
      assert j != i ==> b in s.actors;
    }
  }

  lemma MarkersHaveSent(c: Catalog, db: DB, a: Actor, choice: Choice)
    ensures forall run :: ActorTxn(c, db, a, choice) == DispatchedTxn(run) ==> a == Dispatcher(run, MarkingDispatched)
    ensures var next := StepActor(c, db, a, choice).1;
            next.Dispatcher? && next.dispatch.MarkingDispatched? ==> next.run in Sending(a, choice)
  {
    hide Apply, NextPc;
  }

  lemma ClientKeepsAccounted(c: Catalog, s: Sys, txn: Txn)
    requires Aligned(s.db) && Accounted(s) && IsClient(txn)
    ensures Accounted(s.(db := Apply(c, s.db, txn)))
  {
    hide Aligned, Apply, Sent;
    forall run | Sent(Apply(c, s.db, txn), run) ensures Sent(s.db, run) {
      OnlyDispatchMarks(c, s.db, txn, run);
    }
  }

  lemma EventKeepsAccounted(c: Catalog, s: Sys, e: Event)
    requires Aligned(s.db) && Accounted(s)
    ensures Accounted(Do(c, s, e))
  {
    hide Aligned, Apply, Acted, Waits, Sent;
    match e
    case Client(txn) => if IsClient(txn) { ClientKeepsAccounted(c, s, txn); }
    case Act(i, choice) => if i < |s.actors| { ActKeepsAccounted(c, s, i, choice); }
    case Crash(i) =>
      forall a | a in Do(c, s, e).actors && a.Dispatcher? && a.dispatch.MarkingDispatched? ensures a in s.actors {
        var j :| 0 <= j < |s.actors| && Do(c, s, e).actors[j] == a;
      }
    case _ =>
  }

  /** A run is marked dispatched only after its job was handed to Redis. */
  lemma {:induction false} DispatchedWasSent(c: Catalog, now: nat, monthStart: nat, events: seq<Event>)
    requires ValidCatalog(c) && monthStart <= now
    ensures Accounted(After(c, Boot(now, monthStart), events))
    decreases |events|
  {
    hide RunsOk, ActorsOk, ClaimsDiffer, CallsOk;
    if |events| > 0 {
      AlwaysSafe(c, now, monthStart, events[..|events| - 1]);
      DispatchedWasSent(c, now, monthStart, events[..|events| - 1]);
      EventKeepsAccounted(c, After(c, Boot(now, monthStart), events[..|events| - 1]), events[|events| - 1]);
    }
  }

  // ----- what a worker does with its job -----

  /** A worker drops its job, changing nothing, if and only if the run is neither QUEUED nor RUNNING: one
      delivered while the run is still PENDING_DISPATCH is lost. If it goes on, the run is RUNNING, since now
      unless it had been started before. */
  lemma DroppedExactlyWhen(c: Catalog, s: Sys, i: nat, run: nat)
    requires run < |s.db.runs| && i < |s.actors| && s.actors[i] == Worker(run, Starting)
    ensures var next := Acted(c, s, i, Proceed);
            && (next.actors[i] == Worker(run, Finished) <==> s.db.runs[run].status !in {Queued, Running})
            && (next.actors[i] == Worker(run, Finished) ==> next.db == s.db && next.jobs == s.jobs - {run})
            && (next.actors[i] != Worker(run, Finished) ==> next.jobs == s.jobs)
            && (next.actors[i] == Worker(run, Hanging) <==> s.db.runs[run].status == Running && HasInFlight(s.db, run))
            && (next.actors[i] == Worker(run, Hanging) ==> next.db == s.db)
            && (next.actors[i].Worker? && next.actors[i].pc.Looping? ==>
                  && next.actors[i].pc.at == Local(0, 0, 0, 0, [])
                  && var r := s.db.runs[run];
                  next.db == s.db.(runs := s.db.runs[run := r.(
                                             status := Running,
                                             startedAt := if r.startedAt.Some? then r.startedAt else Some(s.db.now))]))
  {
    hide HasInFlight;
  }

  /** A job comes with an enqueue that Redis takes, whatever the dispatcher makes of it, and goes when a worker that
      has it returns or raises; a crash leaves it to be delivered again. */
  lemma JobsChange(c: Catalog, s: Sys, e: Event)
    ensures var s' := Do(c, s, e);
            var acts := e.Act? && e.i < |s.actors| && !Waits(c, s, s.actors[e.i], e.choice);
            && (acts && s.actors[e.i].Dispatcher? && s.actors[e.i].dispatch.Enqueuing? && !e.choice.Raise? ==>
                  s'.jobs == s.jobs + {s.actors[e.i].run} && s'.sent == s.sent + {s.actors[e.i].run})
            && (acts && s.actors[e.i].Worker? && !s.actors[e.i].pc.Finished? && s'.actors[e.i].pc == Finished ==>
                  s'.jobs == s.jobs - {s.actors[e.i].run} && s'.sent == s.sent)
            && (s'.jobs != s.jobs ==> acts && (s.actors[e.i].Dispatcher? || s.actors[e.i].Worker?))
  {
    hide Apply, NextPc, Waits;
  }

  // ----- which runs can still be started -----

  ghost predicate HasStarted(s: Sys, run: nat) {
    run < |s.db.runs| && s.db.runs[run].startedAt.Some?
  }

  ghost predicate Startable(c: Catalog, s: Sys, run: nat) {
    exists events: seq<Event> :: HasStarted(After(c, s, events), run)
  }

  lemma StartableSoon(c: Catalog, s: Sys, e: Event, run: nat)
    requires Startable(c, Do(c, s, e), run)
    ensures Startable(c, s, run)
  {
    hide HasStarted, Do;
    var events: seq<Event> :| HasStarted(After(c, Do(c, s, e), events), run);
    AfterFirst(c, s, e, events);
    assert HasStarted(After(c, s, [e] + events), run);
  }

  lemma StartedNow(c: Catalog, s: Sys, run: nat)
    requires HasStarted(s, run)
    ensures Startable(c, s, run)
  {
    assert After(c, s, []) == s;
  }

  ghost predicate Waiting(s: Sys, run: nat) {
    run < |s.db.runs| && s.db.runs[run].status == Queued && s.db.runs[run].startedAt.None?
  }

  lemma HangingHasStarted(c: Catalog, s: Sys, i: nat, run: nat)
    requires SysOk(c, s) && i < |s.actors| && s.actors[i] == Worker(run, Hanging)
    ensures HasStarted(s, run)
  {
    assert ActorOk(c, s.db, s.actors[i]);
  }

  lemma NobodyHangs(c: Catalog, s: Sys, run: nat)
    requires SysOk(c, s) && !HasStarted(s, run)
    ensures Free(s, run)
  {
    hide SysOk, HasStarted;
    forall i | 0 <= i < |s.actors| ensures s.actors[i] != Worker(run, Hanging) {
      if s.actors[i] == Worker(run, Hanging) {
        HangingHasStarted(c, s, i, run);
      }
    }
  }

  lemma BeginQueued(c: Catalog, db: DB, run: nat)
    requires run < |db.runs| && db.runs[run].status == Queued && db.runs[run].startedAt.None?
    ensures var db' := StepActor(c, db, Worker(run, Starting), Proceed).0;
            run < |db'.runs| && db'.runs[run].startedAt.Some?
  {
    hide HasInFlight;
  }

  lemma WorkerStarts(c: Catalog, s: Sys, i: nat, run: nat)
    requires SysOk(c, s) && Waiting(s, run) && i < |s.actors| && s.actors[i] == Worker(run, Starting)
    ensures Startable(c, s, run)
  {
    NobodyHangs(c, s, run);
    hide SysOk, StepActor;
    BeginQueued(c, s.db, run);
    StartedNow(c, Do(c, s, Act(i, Proceed)), run);
    hide Startable, HasStarted, Do;
    StartableSoon(c, s, Act(i, Proceed), run);
  }

  lemma JobStarts(c: Catalog, s: Sys, run: nat)
    requires ValidCatalog(c) && SysOk(c, s) && Waiting(s, run) && run in s.jobs
    ensures Startable(c, s, run)
  {
    hide SysOk, Startable;
    AfterSpawn(c, s, Worker(run, Starting));
    WorkerStarts(c, Do(c, s, Spawn(Worker(run, Starting))), |s.actors|, run);
    StartableSoon(c, s, Spawn(Worker(run, Starting)), run);
  }

  lemma EnqueuingStarts(c: Catalog, s: Sys, i: nat, run: nat)
    requires ValidCatalog(c) && SysOk(c, s) && Waiting(s, run)
    requires i < |s.actors| && s.actors[i] == Dispatcher(run, Enqueuing)
    ensures Startable(c, s, run)
  {
    hide SysOk, Startable;
    EventKeeps(c, s, Act(i, Proceed));
    JobStarts(c, Do(c, s, Act(i, Proceed)), run);
    StartableSoon(c, s, Act(i, Proceed), run);
  }

  lemma ServedStarts(c: Catalog, s: Sys, run: nat)
    requires ValidCatalog(c) && SysOk(c, s) && Waiting(s, run) && Sent(s.db, run) && !Unserved(s, run)
    ensures Startable(c, s, run)
  {
    hide SysOk, Startable, Waiting;
    if run in s.jobs {
      JobStarts(c, s, run);
    } else {
      var a :| a in s.actors && Serves(a, run);
      var i :| 0 <= i < |s.actors| && s.actors[i] == a;
      if a.Worker? {
        WorkerStarts(c, s, i, run);
      } else {
        EnqueuingStarts(c, s, i, run);
      }
    }
  }

  // ----- a run that is not yet dispatched -----

  /** What a dispatcher of a PENDING_DISPATCH run does. */
  lemma DispatcherGoesOn(c: Catalog, db: DB, run: nat)
    requires Aligned(db) && run < |db.runs| && db.runs[run].status == PendingDispatch && !db.outbox[run].dispatched
    ensures StepActor(c, db, Dispatcher(run, Looking), Proceed) == (db, Dispatcher(run, Enqueuing))
    ensures StepActor(c, db, Dispatcher(run, Enqueuing), Proceed) == (db, Dispatcher(run, MarkingDispatched))
    ensures var db' := StepActor(c, db, Dispatcher(run, MarkingDispatched), Proceed).0;
            |db'.runs| == |db.runs| && db'.runs[run] == db.runs[run].(status := Queued)
  {
    assert db.outbox[run].run == run;
  }

  lemma MarkingStarts(c: Catalog, s: Sys, i: nat, run: nat)
    requires ValidCatalog(c) && SysOk(c, s) && run < |s.db.runs| && s.db.runs[run].status == PendingDispatch
    requires Aligned(s.db) && !s.db.outbox[run].dispatched && s.db.runs[run].startedAt.None?
    requires i < |s.actors| && s.actors[i] == Dispatcher(run, MarkingDispatched) && run in s.jobs
    ensures Startable(c, s, run)
  {
    hide SysOk, Aligned, StepActor, Startable;
    DispatcherGoesOn(c, s.db, run);
    EventKeeps(c, s, Act(i, Proceed));
    JobStarts(c, Do(c, s, Act(i, Proceed)), run);
    StartableSoon(c, s, Act(i, Proceed), run);
  }

  lemma SendingStarts(c: Catalog, s: Sys, i: nat, run: nat)
    requires ValidCatalog(c) && SysOk(c, s) && run < |s.db.runs| && s.db.runs[run].status == PendingDispatch
    requires Aligned(s.db) && !s.db.outbox[run].dispatched && s.db.runs[run].startedAt.None?
    requires i < |s.actors| && s.actors[i] == Dispatcher(run, Enqueuing)
    ensures Startable(c, s, run)
  {
    hide SysOk, Aligned, StepActor, Startable;
    DispatcherGoesOn(c, s.db, run);
    EventKeeps(c, s, Act(i, Proceed));
    MarkingStarts(c, Do(c, s, Act(i, Proceed)), i, run);
    StartableSoon(c, s, Act(i, Proceed), run);
  }

  lemma LookingStarts(c: Catalog, s: Sys, i: nat, run: nat)
    requires ValidCatalog(c) && SysOk(c, s) && run < |s.db.runs| && s.db.runs[run].status == PendingDispatch
    requires Aligned(s.db) && !s.db.outbox[run].dispatched && s.db.runs[run].startedAt.None?
    requires i < |s.actors| && s.actors[i] == Dispatcher(run, Looking)
    ensures Startable(c, s, run)
  {
    hide SysOk, Aligned, StepActor, Startable;
    DispatcherGoesOn(c, s.db, run);
    EventKeeps(c, s, Act(i, Proceed));
    SendingStarts(c, Do(c, s, Act(i, Proceed)), i, run);
    StartableSoon(c, s, Act(i, Proceed), run);
  }

  lemma PendingStarts(c: Catalog, s: Sys, run: nat)
    requires ValidCatalog(c) && SysOk(c, s) && run < |s.db.runs| && s.db.runs[run].status == PendingDispatch
    ensures Startable(c, s, run)
  {
    assert RunOk(c, s.db, run);
    hide SysOk, Startable;
    AfterSpawn(c, s, Dispatcher(run, Looking));
    LookingStarts(c, Do(c, s, Spawn(Dispatcher(run, Looking))), |s.actors|, run);
    StartableSoon(c, s, Spawn(Dispatcher(run, Looking)), run);
  }

  // ----- a run that nobody will start -----

  /** Not started, and either ended or without a job. */
  ghost predicate Dormant(s: Sys, run: nat) {
    && run < |s.db.runs| && s.db.runs[run].startedAt.None?
    && (Ended(s.db.runs[run].status) || Unserved(s, run))
  }

  /** Only the opening block of a QUEUED or RUNNING run writes its start. */
  lemma OnlyBeginStarts(c: Catalog, db: DB, txn: Txn, run: nat)
    requires run < |db.runs| && db.runs[run].startedAt.None?
    requires txn == BeginRun(run) ==> Ended(db.runs[run].status)
    ensures run < |Apply(c, db, txn).runs| && Apply(c, db, txn).runs[run].startedAt.None?
  {
    hide AdmissionError, Hold, SettleRun, RefundRun, RequestOf, HasInFlight;
    if IsClient(txn) {
      Statuses.ClientsWrite(c, db, txn, run);
    }
  }

  lemma BeginnersServe(c: Catalog, db: DB, a: Actor, choice: Choice, run: nat)
    ensures ActorTxn(c, db, a, choice) == BeginRun(run) ==> Serves(a, run)
  {
  }

  lemma ActStartsNothing(c: Catalog, s: Sys, i: nat, choice: Choice, run: nat)
    requires Dormant(s, run) && i < |s.actors|
    ensures var s' := Acted(c, s, i, choice); run < |s'.db.runs| && s'.db.runs[run].startedAt.None?
  {
    assert s.actors[i] in s.actors;
    hide Apply, StepActor, ActorTxn, Serves;
    StepIsTransaction(c, s.db, s.actors[i], choice);
    BeginnersServe(c, s.db, s.actors[i], choice, run);
    OnlyBeginStarts(c, s.db, ActorTxn(c, s.db, s.actors[i], choice), run);
  }

  lemma EventStartsNothing(c: Catalog, s: Sys, e: Event, run: nat)
    requires Dormant(s, run)
    ensures var s' := Do(c, s, e); run < |s'.db.runs| && s'.db.runs[run].startedAt.None?
  {
    hide Unserved, Apply, StepActor, Waits, Acted;
    match e
    case Client(txn) => if IsClient(txn) { Statuses.ClientsWrite(c, s.db, txn, run); }
    case Act(i, choice) => if i < |s.actors| { ActStartsNothing(c, s, i, choice, run); }
    case _ =>
  }

  lemma EventKeepsDormant(c: Catalog, s: Sys, e: Event, run: nat)
    requires ValidCatalog(c) && SysOk(c, s) && Dormant(s, run)
    ensures Dormant(Do(c, s, e), run)
  {
    assert Aligned(s.db);
    hide SysOk, Aligned, Do, Unserved;
    EventStartsNothing(c, s, e, run);
    if Ended(s.db.runs[run].status) {
      EventKeepsEnded(c, s, e, run);
    } else {
      EventKeepsUnserved(c, s, e, run);
    }
  }

  lemma {:induction false} DormantForever(c: Catalog, s: Sys, events: seq<Event>, run: nat)
    requires ValidCatalog(c) && SysOk(c, s) && Dormant(s, run)
    ensures SysOk(c, After(c, s, events)) && Dormant(After(c, s, events), run)
    decreases |events|
  {
    hide SysOk, Dormant, Do;
    if |events| > 0 {
      DormantForever(c, s, events[..|events| - 1], run);
      EventKeeps(c, After(c, s, events[..|events| - 1]), events[|events| - 1]);
      EventKeepsDormant(c, After(c, s, events[..|events| - 1]), events[|events| - 1], run);
    }
  }

  lemma UnstartedStatuses(c: Catalog, s: Sys, run: nat)
    requires SysOk(c, s) && run < |s.db.runs| && s.db.runs[run].startedAt.None?
    ensures s.db.runs[run].status in {PendingDispatch, Queued} || Ended(s.db.runs[run].status)
    ensures s.db.runs[run].status == Queued ==> Sent(s.db, run)
  {
    assert RunOk(c, s.db, run);
  }

  /** The exact condition: a run that has not started can still be started if and only if it is
      PENDING_DISPATCH, or QUEUED with a job in Redis or someone about to take it up or send one. */
  lemma StartableExactlyWhen(c: Catalog, s: Sys, run: nat)
    requires ValidCatalog(c) && SysOk(c, s) && run < |s.db.runs| && s.db.runs[run].startedAt.None?
    ensures Startable(c, s, run)
       <==> s.db.runs[run].status == PendingDispatch || (s.db.runs[run].status == Queued && !Unserved(s, run))
  {
    UnstartedStatuses(c, s, run);
    hide SysOk, Unserved, Startable;
    if s.db.runs[run].status == PendingDispatch {
      PendingStarts(c, s, run);
    } else if s.db.runs[run].status == Queued && !Unserved(s, run) {
      ServedStarts(c, s, run);
    } else {
      DormantIsNotStartable(c, s, run);
    }
  }

  lemma DormantIsNotStartable(c: Catalog, s: Sys, run: nat)
    requires ValidCatalog(c) && SysOk(c, s) && Dormant(s, run)
    ensures !Startable(c, s, run)
  {
    hide SysOk, Unserved;
    forall events ensures !HasStarted(After(c, s, events), run) {
      DormantForever(c, s, events, run);
    }
  }
}
