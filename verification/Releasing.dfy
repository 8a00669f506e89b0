/** Which open holds can still be closed. In every reachable state some sequence of events closes an
    open reservation, unless its run is stranded: RUNNING or CANCEL_REQUESTED with nobody at work on it,
    and no worker to come that could take it up. */
module Releasing {
  import opened Tables
  import opened Pricing
  import opened Billing
  import opened RunBlocks
  import opened BooksInvariant
  import opened Transactions
  import opened Consistency
  import opened Machine
  import opened Protocol
  import opened Reachability
  import opened Reaping
  import opened Stranding

  ghost predicate HoldOpen(s: Sys, run: nat) {
    run < |s.db.runs| && run < |s.db.books.reservations| && s.db.books.reservations[run].status == Open
  }

  ghost predicate Released(s: Sys, run: nat) {
    run < |s.db.books.reservations| && s.db.books.reservations[run].status != Open
  }

  /** Some events close the run's reservation. */
  ghost predicate Releasable(c: Catalog, s: Sys, run: nat) {
    exists events: seq<Event> :: Released(After(c, s, events), run)
  }

  lemma {:induction false} AfterFirst(c: Catalog, s: Sys, e: Event, events: seq<Event>)
    ensures After(c, s, [e] + events) == After(c, Do(c, s, e), events)
    decreases |events|
  {
    hide Do;
    if |events| == 0 {
      assert [e] + events == [e];
      assert [e][..0] == [];
    } else {
      var front := events[..|events| - 1];
      AfterFirst(c, s, e, front);
      assert ([e] + events)[..|events|] == [e] + front;
    }
  }

  lemma ReleasedNow(c: Catalog, s: Sys, run: nat)
    requires Released(s, run)
    ensures Releasable(c, s, run)
  {
    assert After(c, s, []) == s;
  }

  lemma ReleasableSoon(c: Catalog, s: Sys, e: Event, run: nat)
    requires Releasable(c, Do(c, s, e), run)
    ensures Releasable(c, s, run)
  {
    hide Released, Do;
    var events: seq<Event> :| Released(After(c, Do(c, s, e), events), run);
    AfterFirst(c, s, e, events);
    assert Released(After(c, s, [e] + events), run);
  }

  // ----- the step that refunds -----

  lemma RefundReleases(c: Catalog, db: DB, run: nat)
    requires RowsOk(db.books, db.now) && run < |db.books.reservations|
    ensures RefundRun(db.books, run, db.now).Committed?
    ensures var b := Apply(c, db, RefundTxn(run)).books; run < |b.reservations| && b.reservations[run].status != Open
  {
    RefundCloses(db.books, run, db.now);
  }

  /** About to commit the refund of this run. */
  predicate Refunding(a: Actor, run: nat) {
    match a
    case Worker(r, pc) => r == run && pc.Failing?
    case Canceller(r, _, pc) => r == run && pc.RefundingCancelled?
    case Reaper(queue, pc) => queue != [] && queue[0] == run && pc.RefundingHead?
    case Operator(r, action, pc) => r == run && action.RefundIt? && pc.ClosingReservation?
    case _ => false
  }

  lemma RefundingReleases(c: Catalog, s: Sys, i: nat, run: nat)
    requires Consistent(s.db) && run < |s.db.runs| && i < |s.actors| && Refunding(s.actors[i], run)
    ensures Released(Do(c, s, Act(i, Proceed)), run) && Releasable(c, s, run)
  {
    assert RowsOk(s.db.books, s.db.now) && run < |s.db.books.reservations|;
    RefundReleases(c, s.db, run);
    RefundingRefunds(c, s.db, s.actors[i], run);
    hide Consistent, Apply, StepActor, RowsOk, RefundRun;
    ReleasedNow(c, Do(c, s, Act(i, Proceed)), run);
    ReleasableSoon(c, s, Act(i, Proceed), run);
  }

  lemma RefundingRefunds(c: Catalog, db: DB, a: Actor, run: nat)
    requires Refunding(a, run) && run < |db.runs| && RefundRun(db.books, run, db.now).Committed?
    ensures StepActor(c, db, a, Proceed).0 == Apply(c, db, RefundTxn(run))
  {
    hide Apply, RefundRun, NextPc;
  }

  /** One step after which the actor refunds. */
  lemma ThenRefunds(c: Catalog, s: Sys, i: nat, choice: Choice, run: nat)
    requires ValidCatalog(c) && SysOk(c, s) && run < |s.db.runs| && i < |s.actors|
    requires !Waits(c, s, s.actors[i], choice)
    requires Refunding(StepActor(c, s.db, s.actors[i], choice).1, run)
    ensures Releasable(c, s, run)
  {
    EventKeeps(c, s, Act(i, choice));
    StepKeepsRunCount(c, s, i, choice);
    var next := Do(c, s, Act(i, choice));
    assert Consistent(next.db);
    hide SysOk, StepActor, Refunding, Consistent;
    RefundingReleases(c, next, i, run);
    ReleasableSoon(c, s, Act(i, choice), run);
  }

  lemma StepKeepsRunCount(c: Catalog, s: Sys, i: nat, choice: Choice)
    requires ValidCatalog(c) && SysOk(c, s) && i < |s.actors|
    ensures |Acted(c, s, i, choice).db.runs| >= |s.db.runs|
  {
    var a := s.actors[i];
    assert ActorOk(c, s.db, a) && RowsOk(s.db.books, s.db.now) && RunsOk(c, s.db);
    hide SysOk, RunsOk, RowsOk, ActorOk, StepActor;
    ActorStep(c, s.db, a, choice);
  }

  /** A new process. */
  lemma AfterSpawn(c: Catalog, s: Sys, a: Actor)
    requires ValidCatalog(c) && SysOk(c, s) && IsFresh(a) && (a.Worker? ==> a.run in s.jobs)
    ensures var next := Do(c, s, Spawn(a));
            && SysOk(c, next) && next.db == s.db
            && |next.actors| == |s.actors| + 1 && next.actors[|s.actors|] == a && next.actors == s.actors + [a]
  {
    EventKeeps(c, s, Spawn(a));
  }

  /** No worker hangs on the run's row. */
  predicate Free(s: Sys, run: nat) {
    Worker(run, Hanging) !in s.actors
  }

  // ----- each status with an open hold -----

  lemma WaitingIsReleasable(c: Catalog, s: Sys, run: nat)
    requires ValidCatalog(c) && SysOk(c, s) && HoldOpen(s, run) && Free(s, run)
    requires s.db.runs[run].status in {PendingDispatch, Queued}
    ensures Releasable(c, s, run)
  {
    var a := Canceller(run, s.db.runs[run].tenant, Requesting);
    AfterSpawn(c, s, a);
    var next := Do(c, s, Spawn(a));
    assert Refunding(StepActor(c, next.db, a, Proceed).1, run);
    hide SysOk, StepActor;
    ThenRefunds(c, next, |s.actors|, Proceed, run);
    ReleasableSoon(c, s, Spawn(a), run);
  }

  lemma BlockedIsReleasable(c: Catalog, s: Sys, run: nat)
    requires ValidCatalog(c) && SysOk(c, s) && HoldOpen(s, run) && s.db.runs[run].status == Blocked
    ensures Releasable(c, s, run)
  {
    var a := Operator(run, RefundIt, Checking);
    AfterSpawn(c, s, a);
    var next := Do(c, s, Spawn(a));
    assert RunOk(c, s.db, run);
    OwnReservation(s.db, run);
    assert Refunding(StepActor(c, next.db, a, Proceed).1, run);
    hide SysOk, StepActor;
    ThenRefunds(c, next, |s.actors|, Proceed, run);
    ReleasableSoon(c, s, Spawn(a), run);
  }

  /** An exception inside execute_run's try block is answered by a refund. */
  lemma RaisingIsReleasable(c: Catalog, s: Sys, i: nat, run: nat)
    requires ValidCatalog(c) && SysOk(c, s) && run < |s.db.runs| && i < |s.actors|
    requires s.actors[i].Worker? && s.actors[i].run == run
    requires !s.actors[i].pc.Hanging? && RaisePc(s.actors[i].pc, "").Failing?
    ensures Releasable(c, s, run)
  {
    hide SysOk;
    ThenRefunds(c, s, i, Raise(""), run);
  }

  /** A worker about to begin a RUNNING run with nothing in flight gets into its try block. */
  lemma BeginningIsReleasable(c: Catalog, s: Sys, i: nat, run: nat)
    requires ValidCatalog(c) && SysOk(c, s) && HoldOpen(s, run) && Free(s, run)
    requires s.db.runs[run].status == Running && !HasInFlight(s.db, run)
    requires i < |s.actors| && s.actors[i] == Worker(run, Starting)
    ensures Releasable(c, s, run)
  {
    hide SysOk, StepActor, HasInFlight, Releasable;
    var begun := Do(c, s, Act(i, Proceed));
    EventKeeps(c, s, Act(i, Proceed));
    BeginRunning(c, s.db, run);
    RaisingIsReleasable(c, begun, i, run);
    ReleasableSoon(c, s, Act(i, Proceed), run);
  }

  /** So does the worker a job is delivered to. */
  lemma DeliveredIsReleasable(c: Catalog, s: Sys, run: nat)
    requires ValidCatalog(c) && SysOk(c, s) && HoldOpen(s, run) && Free(s, run) && run in s.jobs
    requires s.db.runs[run].status == Running && !HasInFlight(s.db, run)
    ensures Releasable(c, s, run)
  {
    hide SysOk, HasInFlight, Releasable;
    var a := Worker(run, Starting);
    AfterSpawn(c, s, a);
    BeginningIsReleasable(c, Do(c, s, Spawn(a)), |s.actors|, run);
    ReleasableSoon(c, s, Spawn(a), run);
  }

  lemma EnqueuingIsReleasable(c: Catalog, s: Sys, i: nat, run: nat)
    requires ValidCatalog(c) && SysOk(c, s) && HoldOpen(s, run) && Free(s, run)
    requires s.db.runs[run].status == Running && !HasInFlight(s.db, run)
    requires i < |s.actors| && s.actors[i] == Dispatcher(run, Enqueuing)
    ensures Releasable(c, s, run)
  {
    hide SysOk, HasInFlight, Releasable;
    var sent := Do(c, s, Act(i, Proceed));
    EventKeeps(c, s, Act(i, Proceed));
    DeliveredIsReleasable(c, sent, run);
    ReleasableSoon(c, s, Act(i, Proceed), run);
  }

  lemma StartedIsSent(c: Catalog, s: Sys, run: nat)
    requires SysOk(c, s) && run < |s.db.runs| && s.db.runs[run].status == Running
    ensures Sent(s.db, run)
  {
    assert RunOk(c, s.db, run);
  }

  lemma ServedIsReleasable(c: Catalog, s: Sys, run: nat)
    requires ValidCatalog(c) && SysOk(c, s) && HoldOpen(s, run) && Free(s, run)
    requires s.db.runs[run].status == Running && !HasInFlight(s.db, run) && !Unserved(s, run)
    ensures Releasable(c, s, run)
  {
    StartedIsSent(c, s, run);
    hide SysOk, HasInFlight, Releasable;
    if run in s.jobs {
      DeliveredIsReleasable(c, s, run);
    } else {
      var a :| a in s.actors && Serves(a, run);
      var i :| 0 <= i < |s.actors| && s.actors[i] == a;
      if a.Worker? {
        BeginningIsReleasable(c, s, i, run);
      } else {
        EnqueuingIsReleasable(c, s, i, run);
      }
    }
  }

  lemma BeginRunning(c: Catalog, db: DB, run: nat)
    requires run < |db.runs| && db.runs[run].status == Running && !HasInFlight(db, run)
    ensures var (db', a) := StepActor(c, db, Worker(run, Starting), Proceed);
            |db'.runs| == |db.runs| && db'.books == db.books && a == Worker(run, Looping(NOTHING_DONE))
  {
    hide HasInFlight;
  }

  function WaitPast(db: DB, instant: nat): Txn {
    Tick(if db.now > instant then db.now else instant + 1, db.monthStart)
  }

  lemma WaitingIsLate(c: Catalog, db: DB, run: nat, instant: nat)
    requires Consistent(db)
    ensures var later := Apply(c, db, WaitPast(db, instant));
            later.books == db.books && later.runs == db.runs && later.now > instant
  {
    assert ControlsOk(db);
    hide BooksOk, Aligned, MarketOk, KeysOk;
  }

  lemma LateIsPicked(c: Catalog, db: DB, run: nat)
    requires Consistent(db) && run < |db.runs| && db.runs[run].status == Cancelled
    requires run < |db.books.reservations| && db.books.reservations[run].status == Open
    requires db.books.reservations[run].expiresAt < db.now
    ensures StepActor(c, db, Reaper([], Selecting), Pick([run])) == (db, Reaper([run], RefundingHead))
  {
    OwnReservation(db, run);
    hide Consistent, FindReservation;
  }

  lemma CancelledIsReleasable(c: Catalog, s: Sys, run: nat)
    requires ValidCatalog(c) && SysOk(c, s) && HoldOpen(s, run) && s.db.runs[run].status == Cancelled
    ensures Releasable(c, s, run)
  {
    var later := Client(WaitPast(s.db, s.db.books.reservations[run].expiresAt));
    var late := Do(c, s, later);
    assert Consistent(s.db);
    WaitingIsLate(c, s.db, run, s.db.books.reservations[run].expiresAt);
    EventKeeps(c, s, later);
    assert Consistent(late.db);
    AfterSpawn(c, late, Reaper([], Selecting));
    var next := Do(c, late, Spawn(Reaper([], Selecting)));
    LateIsPicked(c, next.db, run);
    hide SysOk, StepActor, Apply, Consistent;
    ThenRefunds(c, next, |late.actors|, Pick([run]), run);
    ReleasableSoon(c, late, Spawn(Reaper([], Selecting)), run);
    ReleasableSoon(c, s, later, run);
  }

  lemma ReaperMovesOn(c: Catalog, db: DB, queue: seq<nat>, pc: ReapPc)
    requires RowsOk(db.books, db.now) && queue != [] && (pc.RefundingHead? || pc.ExpiringHead?)
    ensures StepActor(c, db, Reaper(queue, pc), Proceed).1
         == if pc.RefundingHead? then Reaper(queue, ExpiringHead)
            else Reaper(queue[1..], if |queue| > 1 then RefundingHead else ReapOver)
  {
    RefundCloses(db.books, queue[0], db.now);
    hide Apply, RefundRun;
  }

  lemma ReaperFacts(c: Catalog, s: Sys, i: nat, run: nat)
    requires SysOk(c, s) && run < |s.db.runs| && i < |s.actors| && s.actors[i].Reaper? && s.actors[i].queue != []
    ensures Consistent(s.db) && run < |s.db.books.reservations|
    ensures s.actors[i].reap.RefundingHead? || s.actors[i].reap.ExpiringHead?
    ensures s.actors[i].reap.ExpiringHead? ==> ReservationClosed(s.db, s.actors[i].queue[0])
  {
    assert ActorOk(c, s.db, s.actors[i]) && Consistent(s.db);
  }

  lemma ReaperActs(c: Catalog, s: Sys, i: nat, queue: seq<nat>, pc: ReapPc)
    requires ValidCatalog(c) && SysOk(c, s) && i < |s.actors| && s.actors[i] == Reaper(queue, pc) && queue != []
    requires pc.RefundingHead? || pc.ExpiringHead?
    ensures var next := Do(c, s, Act(i, Proceed));
            && SysOk(c, next) && |next.db.runs| >= |s.db.runs| && i < |next.actors|
            && next.actors[i] == if pc.RefundingHead? then Reaper(queue, ExpiringHead)
                                 else Reaper(queue[1..], if |queue| > 1 then RefundingHead else ReapOver)
  {
    assert RowsOk(s.db.books, s.db.now);
    hide SysOk, StepActor, RowsOk;
    EventKeeps(c, s, Act(i, Proceed));
    StepKeepsRunCount(c, s, i, Proceed);
    ReaperMovesOn(c, s.db, queue, pc);
  }

  /** A reaper gets to every run it has selected. */
  lemma {:induction false} QueuedIsReleasable(c: Catalog, s: Sys, i: nat, run: nat)
    requires ValidCatalog(c) && SysOk(c, s) && run < |s.db.runs|
    requires i < |s.actors| && s.actors[i].Reaper? && run in s.actors[i].queue
    ensures Releasable(c, s, run)
    decreases |s.actors[i].queue|, if s.actors[i].reap.RefundingHead? then 1 else 0
  {
    hide SysOk, Consistent, Do, Releasable;
    var queue, pc := s.actors[i].queue, s.actors[i].reap;
    ReaperFacts(c, s, i, run);
    if s.db.books.reservations[run].status != Open {
      ReleasedNow(c, s, run);
    } else if Refunding(s.actors[i], run) {
      RefundingReleases(c, s, i, run);
    } else {
      ReaperActs(c, s, i, queue, pc);
      assert queue == [queue[0]] + queue[1..];
      QueuedIsReleasable(c, Do(c, s, Act(i, Proceed)), i, run);
      ReleasableSoon(c, s, Act(i, Proceed), run);
    }
  }

  lemma MarkingBlocks(c: Catalog, db: DB, run: nat)
    requires run < |db.runs|
    ensures var db' := StepActor(c, db, Worker(run, MarkingBlocked), Proceed).0;
            |db'.runs| == |db.runs| && db'.books == db.books && db'.runs[run].status == Blocked
  {
  }

  lemma BlockingIsReleasable(c: Catalog, s: Sys, i: nat, run: nat)
    requires ValidCatalog(c) && SysOk(c, s) && HoldOpen(s, run) && Free(s, run)
    requires i < |s.actors| && s.actors[i] == Worker(run, MarkingBlocked)
    ensures Releasable(c, s, run)
  {
    hide SysOk, StepActor;
    var next := Do(c, s, Act(i, Proceed));
    EventKeeps(c, s, Act(i, Proceed));
    MarkingBlocks(c, s.db, run);
    BlockedIsReleasable(c, next, run);
    ReleasableSoon(c, s, Act(i, Proceed), run);
  }

  /** An actor with this run in hand closes the hold. */
  lemma BusyIsReleasable(c: Catalog, s: Sys, i: nat, run: nat)
    requires ValidCatalog(c) && SysOk(c, s) && HoldOpen(s, run) && Free(s, run)
    requires s.db.runs[run].status in {Running, CancelRequested}
    requires i < |s.actors| && !Idle(s.actors[i], run)
    ensures Releasable(c, s, run)
  {
    assert ActorOk(c, s.db, s.actors[i]) && Consistent(s.db);
    hide SysOk, Consistent;
    match s.actors[i]
    case Worker(_, pc) =>
      if pc.Failing? {
        RefundingReleases(c, s, i, run);
      } else if pc.MarkingBlocked? {
        BlockingIsReleasable(c, s, i, run);
      } else {
        RaisingIsReleasable(c, s, i, run);
      }
    case Canceller(_, _, _) => RefundingReleases(c, s, i, run);
    case Reaper(_, _) => QueuedIsReleasable(c, s, i, run);
    case _ =>
  }

  lemma OpenStatuses(c: Catalog, s: Sys, run: nat)
    requires SysOk(c, s) && HoldOpen(s, run)
    ensures s.db.runs[run].status in {PendingDispatch, Queued, Running, CancelRequested, Blocked, Cancelled}
  {
    assert RunOk(c, s.db, run);
  }

  lemma FreeIsReleasable(c: Catalog, s: Sys, run: nat)
    requires ValidCatalog(c) && SysOk(c, s) && HoldOpen(s, run) && Free(s, run) && !Stranded(s, run)
    ensures Releasable(c, s, run)
  {
    assert Consistent(s.db);
    OpenStatuses(c, s, run);
    hide SysOk, Consistent, HasInFlight, Unserved, Releasable;
    if s.db.runs[run].status in {PendingDispatch, Queued} {
      WaitingIsReleasable(c, s, run);
    } else if s.db.runs[run].status == Blocked {
      BlockedIsReleasable(c, s, run);
    } else if s.db.runs[run].status == Cancelled {
      CancelledIsReleasable(c, s, run);
    } else if i :| 0 <= i < |s.actors| && !Idle(s.actors[i], run) {
      BusyIsReleasable(c, s, i, run);
    } else {
      ServedIsReleasable(c, s, run);
    }
  }

  /** The end of a hanging worker's process strands nobody: it was not at work. */
  lemma HangingWasIdle(c: Catalog, s: Sys, i: nat, run: nat)
    requires i < |s.actors| && s.actors[i] == Worker(run, Hanging) && Stranded(Do(c, s, Crash(i)), run)
    ensures Stranded(s, run)
  {
    hide Consistent, HasInFlight;
    var crashed := Do(c, s, Crash(i));
    forall a | a in s.actors ensures Idle(a, run) && (a != Worker(run, Hanging) ==> a in crashed.actors) {
      var j :| 0 <= j < |s.actors| && s.actors[j] == a;
      assert j != i ==> crashed.actors[j] == a;
    }
  }

  /** Any hanging workers are ended first: that gives the row back. */
  lemma {:induction false} UnstrandedIsReleasable(c: Catalog, s: Sys, run: nat)
    requires ValidCatalog(c) && SysOk(c, s) && HoldOpen(s, run) && !Stranded(s, run)
    ensures Releasable(c, s, run)
    decreases multiset(s.actors)[Worker(run, Hanging)]
  {
    hide SysOk, Stranded, Releasable;
    if i :| 0 <= i < |s.actors| && s.actors[i] == Worker(run, Hanging) {
      var crashed := Do(c, s, Crash(i));
      EventKeeps(c, s, Crash(i));
      if Stranded(crashed, run) {
        HangingWasIdle(c, s, i, run);
      }
      UnstrandedIsReleasable(c, crashed, run);
      ReleasableSoon(c, s, Crash(i), run);
    } else {
      FreeIsReleasable(c, s, run);
    }
  }

  /** The exact condition: an open hold can still be closed if and only if it is not stranded. */
  lemma ReleasableExactlyWhen(c: Catalog, s: Sys, run: nat)
    requires ValidCatalog(c) && SysOk(c, s) && HoldOpen(s, run)
    ensures Releasable(c, s, run) <==> !Stranded(s, run)
  {
    hide SysOk, Consistent, HasInFlight, Unserved;
    if Stranded(s, run) {
      forall events ensures !Released(After(c, s, events), run) {
        StrandedForever(c, s, events, run);
      }
    } else {
      UnstrandedIsReleasable(c, s, run);
    }
  }

  /** In every reachable state, after any events from an empty database. */
  lemma HoldsAreReleasable(c: Catalog, now: nat, monthStart: nat, events: seq<Event>, s: Sys, run: nat)
    requires ValidCatalog(c) && monthStart <= now && s == After(c, Boot(now, monthStart), events)
    requires HoldOpen(s, run)
    ensures Releasable(c, s, run) <==> !Stranded(s, run)
  {
    hide SysOk;
    AlwaysSafe(c, now, monthStart, events);
    ReleasableExactlyWhen(c, s, run);
  }
}
