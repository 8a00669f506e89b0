/** Cooperative cancellation (zomega/jobs.py:94-103, 144-146 and 188-190): a worker that comes to its loop head
    after a cancellation was requested calls nobody any more, settles what it has used and writes CANCELLED. */
module Cancelling {
  import opened Rows
  import opened Tables
  import opened Pricing
  import opened Billing
  import opened RunBlocks
  import opened BooksInvariant
  import opened Transactions
  import opened Machine
  import opened Protocol
  import opened Reachability
  import opened Statuses

  predicate Asked(db: DB, run: nat) {
    run < |db.runs| && db.runs[run].cancelRequested
  }

  // ----- no further skill -----

  /** Past the loop, one way or another. */
  predicate Leaving(pc: Pc) {
    pc.Settling? || pc.Concluding? || pc.Logging? || pc.Failing? || pc.MarkingFailed? || pc.Finished?
  }

  /** Worker i is at its loop head, or past it, with the cancellation of its run requested. */
  ghost predicate DoneCalling(s: Sys, i: nat, run: nat) {
    && i < |s.actors| && s.actors[i].Worker? && s.actors[i].run == run && Asked(s.db, run)
    && (s.actors[i].pc.Looping? || Leaving(s.actors[i].pc))
  }

  lemma SeesCancellation(c: Catalog, db: DB, run: nat, at: Local)
    requires RunsOk(c, db) && Asked(db, run)
    ensures StepWorker(c, db, run, Looping(at), Proceed) == (db, Settling(at, CancelSeen))
  {
    assert RunOk(c, db, run);
  }

  lemma LeavingWorkerLeaves(c: Catalog, db: DB, run: nat, pc: Pc, choice: Choice)
    requires RunsOk(c, db) && Asked(db, run) && (pc.Looping? || Leaving(pc))
    ensures var next := StepWorker(c, db, run, pc, choice);
            Leaving(next.1) && next.0.executions == db.executions && CallMade(Worker(run, pc), choice) == multiset{}
  {
    hide RunsOk, SettleRun, RefundRun, AtLoopHead;
    if pc.Looping? && !choice.Raise? {
      SeesCancellation(c, db, run, pc.at);
      ChoiceIgnored(c, db, run, pc, choice);
    }
  }

  lemma EventKeepsAsked(c: Catalog, s: Sys, e: Event, run: nat)
    requires ValidCatalog(c) && SysOk(c, s) && Asked(s.db, run)
    ensures Asked(Do(c, s, e).db, run)
  {
    match e
    case Client(txn) =>
      if IsClient(txn) {
        hide Apply, SysOk, ValidCatalog;
        ClientsWrite(c, s.db, txn, run);
      }
    case Act(i, choice) =>
      if i < |s.actors| {
        assert ActorOk(c, s.db, s.actors[i]) && RowsOk(s.db.books, s.db.now) && RunsOk(c, s.db);
        hide SysOk, RunsOk, RowsOk, ActorOk, StepActor, ValidCatalog;
        ActorStep(c, s.db, s.actors[i], choice);
      }
    case _ =>
  }

  lemma EventKeepsDoneCalling(c: Catalog, s: Sys, e: Event, i: nat, run: nat)
    requires ValidCatalog(c) && SysOk(c, s) && DoneCalling(s, i, run)
    ensures DoneCalling(Do(c, s, e), i, run)
    ensures e.Act? && e.i == i ==> Do(c, s, e).db.executions == s.db.executions && Do(c, s, e).calls == s.calls
  {
    assert RunsOk(c, s.db);
    hide SysOk, RunsOk, Apply, StepWorker, Asked, Waits;
    EventKeepsAsked(c, s, e, run);
    if e.Act? && e.i == i {
      LeavingWorkerLeaves(c, s.db, run, s.actors[i].pc, e.choice);
    }
  }

  /** Whatever happens next, and whatever else is going on: a worker that came to its loop head after the
      cancellation inserts no checkpoint and calls the provider for no skill any more. */
  lemma {:induction false} NoSkillAfterCancellation(c: Catalog, s: Sys, events: seq<Event>, i: nat, run: nat,
                                                    choice: Choice)
    requires ValidCatalog(c) && SysOk(c, s) && DoneCalling(s, i, run)
    ensures var s' := After(c, s, events);
            && SysOk(c, s') && DoneCalling(s', i, run)
            && Do(c, s', Act(i, choice)).db.executions == s'.db.executions
            && Do(c, s', Act(i, choice)).calls == s'.calls
    decreases |events|
  {
    hide SysOk, DoneCalling, Do, ValidCatalog;
    if |events| > 0 {
      var front := events[..|events| - 1];
      NoSkillAfterCancellation(c, s, front, i, run, choice);
      EventKeeps(c, After(c, s, front), events[|events| - 1]);
      EventKeepsDoneCalling(c, After(c, s, front), events[|events| - 1], i, run);
    }
    EventKeepsDoneCalling(c, After(c, s, events), Act(i, choice), i, run);
  }

  // ----- how it ends -----

  /** The run is CANCELLED for what it has used, the rest of its hold is back with its tenant, and nothing else
      has changed but the ledger. */
  ghost predicate EndsCancelled(db: DB, end: DB, run: nat, at: Local) {
    && run < |db.runs| && run < |db.books.reservations|
    && var (b, b', r) := (db.books, end.books, db.books.reservations[run]);
    && |end.runs| == |db.runs| && end == db.(books := b', runs := db.runs[run := end.runs[run]])
    && end.runs[run] == db.runs[run].(status := Cancelled, cancelRequested := true, charged := at.total,
                                              result := Some(at.steps))
    && b'.reservations == b.reservations[run := r.(status := Settled, settled := at.total)]
    && r.tenant < |b.wallets|
    && b'.wallets == b.wallets[r.tenant := Wallet(b.wallets[r.tenant].available + r.amount - at.total,
                                                  b.wallets[r.tenant].reserved - r.amount,
                                                  b.wallets[r.tenant].version + 1)]
    && b'.payments == b.payments && b'.publishers == b.publishers && b'.sales == b.sales
  }

  lemma CancellationSettles(c: Catalog, db: DB, run: nat, at: Local)
    requires RunsOk(c, db) && RowsOk(db.books, db.now) && LocalOk(c, db, run, at)
    requires db.books.reservations[run].status == Open
    ensures SettleRun(db.books, run, at.total, db.now).Committed?
    ensures StepWorker(c, db, run, Settling(at, CancelSeen), Proceed)
         == (WithBooks(db, SettleRun(db.books, run, at.total, db.now)), Concluding(at, CancelSeen))
  {
    SettleFailsOnlyIfClosed(c, db, run, at);
    hide RunsOk, RowsOk, LocalOk, SettleRun;
  }

  lemma CancellationConcludes(c: Catalog, db: DB, run: nat, at: Local)
    requires run < |db.runs|
    ensures StepWorker(c, db, run, Concluding(at, CancelSeen), Proceed)
         == (db.(runs := db.runs[run := db.runs[run].(status := Cancelled, cancelRequested := true, charged := at.total,
                                                      result := Some(at.steps))]), Logging)
    ensures StepWorker(c, db, run, Logging, Proceed) == (db, Finished)
  {
  }

  lemma SettledIsCancelled(c: Catalog, db: DB, end: DB, run: nat, at: Local)
    requires RunsOk(c, db) && RowsOk(db.books, db.now) && LocalOk(c, db, run, at)
    requires db.books.reservations[run].status == Open
    requires var settled := WithBooks(db, SettleRun(db.books, run, at.total, db.now));
             end == settled.(runs := db.runs[run := db.runs[run].(
                                       status := Cancelled, cancelRequested := true, charged := at.total,
                                       result := Some(at.steps))])
    ensures EndsCancelled(db, end, run, at)
  {
    SettleFailsOnlyIfClosed(c, db, run, at);
    SettleCloses(db.books, run, at.total, db.now);
  }

  /** A worker that moves on its own, with nobody holding its run's row. */
  lemma WorkerActs(c: Catalog, s: Sys, i: nat, run: nat, pc: Pc, next: (DB, Pc))
    requires i < |s.actors| && s.actors[i] == Worker(run, pc) && Worker(run, Hanging) !in s.actors
    requires StepWorker(c, s.db, run, pc, Proceed) == next && !next.1.Hanging?
    ensures var s' := Do(c, s, Act(i, Proceed));
            && s'.db == next.0 && s'.actors == s.actors[i := Worker(run, next.1)] && s'.calls == s.calls
            && Worker(run, Hanging) !in s'.actors
  {
    hide StepWorker, NextPc;
    var s' := Do(c, s, Act(i, Proceed));
    forall a | a in s'.actors ensures a != Worker(run, Hanging) {
      var j :| 0 <= j < |s'.actors| && s'.actors[j] == a;
      assert j != i ==> s.actors[j] in s.actors;
    }
  }

  function Acts(i: nat, n: nat): seq<Event> {
    seq(n, k => Act(i, Proceed))
  }

  lemma AfterActs(c: Catalog, s: Sys, i: nat, n: nat)
    ensures After(c, s, Acts(i, n + 1)) == Do(c, After(c, s, Acts(i, n)), Act(i, Proceed))
    ensures After(c, s, Acts(i, 0)) == s
  {
    hide Do;
    assert Acts(i, n + 1)[..n] == Acts(i, n);
  }

  lemma LooperKnows(c: Catalog, s: Sys, i: nat, run: nat, at: Local)
    requires SysOk(c, s) && i < |s.actors| && s.actors[i] == Worker(run, Looping(at))
    ensures RunsOk(c, s.db) && RowsOk(s.db.books, s.db.now) && LocalOk(c, s.db, run, at)
  {
    assert ActorOk(c, s.db, s.actors[i]);
  }

  /** The worker's first two blocks: it looks, and settles. */
  lemma CancellationStarts(c: Catalog, s: Sys, i: nat, run: nat, at: Local)
    requires SysOk(c, s) && i < |s.actors| && s.actors[i] == Worker(run, Looping(at))
    requires Asked(s.db, run) && Worker(run, Hanging) !in s.actors
    requires run < |s.db.books.reservations| && s.db.books.reservations[run].status == Open
    ensures var s' := After(c, s, Acts(i, 2));
            && s'.db == WithBooks(s.db, SettleRun(s.db.books, run, at.total, s.db.now)) && s'.calls == s.calls
            && s'.actors == s.actors[i := Worker(run, Concluding(at, CancelSeen))] && Worker(run, Hanging) !in s'.actors
  {
    hide SysOk, RunsOk, RowsOk, LocalOk, StepWorker, Do, SettleRun;
    LooperKnows(c, s, i, run, at);
    AfterActs(c, s, i, 0);
    AfterActs(c, s, i, 1);
    SeesCancellation(c, s.db, run, at);
    WorkerActs(c, s, i, run, Looping(at), (s.db, Settling(at, CancelSeen)));
    CancellationSettles(c, s.db, run, at);
    var settled := WithBooks(s.db, SettleRun(s.db.books, run, at.total, s.db.now));
    WorkerActs(c, Do(c, s, Act(i, Proceed)), i, run, Settling(at, CancelSeen), (settled, Concluding(at, CancelSeen)));
  }

  /** The other two: it writes the status, and returns. */
  lemma CancellationEnds(c: Catalog, s: Sys, i: nat, run: nat, at: Local)
    requires i < |s.actors| && s.actors[i] == Worker(run, Concluding(at, CancelSeen))
    requires Worker(run, Hanging) !in s.actors
    requires run < |s.db.runs|
    ensures var s' := Do(c, Do(c, s, Act(i, Proceed)), Act(i, Proceed));
            && s'.db == StepWorker(c, s.db, run, Concluding(at, CancelSeen), Proceed).0 && s'.calls == s.calls
            && s'.actors == s.actors[i := Worker(run, Finished)]
  {
    hide StepWorker, Do;
    CancellationConcludes(c, s.db, run, at);
    var closed := StepWorker(c, s.db, run, Concluding(at, CancelSeen), Proceed).0;
    WorkerActs(c, s, i, run, Concluding(at, CancelSeen), (closed, Logging));
    CancellationConcludes(c, closed, run, at);
    WorkerActs(c, Do(c, s, Act(i, Proceed)), i, run, Logging, (closed, Finished));
  }

  /** With nobody in between, four blocks take a worker from its loop head to the end of a cancelled run. */
  lemma CancellationIsHonoured(c: Catalog, s: Sys, i: nat, run: nat, at: Local)
    requires SysOk(c, s) && i < |s.actors| && s.actors[i] == Worker(run, Looping(at))
    requires Asked(s.db, run) && Worker(run, Hanging) !in s.actors
    requires run < |s.db.books.reservations| && s.db.books.reservations[run].status == Open
    ensures var end := After(c, s, Acts(i, 4));
            && EndsCancelled(s.db, end.db, run, at) && end.calls == s.calls
            && end.actors == s.actors[i := Worker(run, Finished)]
  {
    hide SysOk, RunsOk, RowsOk, LocalOk, StepWorker, Do, SettleRun, EndsCancelled;
    LooperKnows(c, s, i, run, at);
    CancellationStarts(c, s, i, run, at);
    AfterActs(c, s, i, 2);
    AfterActs(c, s, i, 3);
    CancellationEnds(c, After(c, s, Acts(i, 2)), i, run, at);
    CancellationConcludes(c, After(c, s, Acts(i, 2)).db, run, at);
    SettledIsCancelled(c, s.db, After(c, s, Acts(i, 4)).db, run, at);
  }

  // ----- nobody hangs on a run whose cancellation was requested -----

  /** A worker hangs only on a run that is, and stays, RUNNING. */
  ghost predicate HangersRun(s: Sys) {
    forall a :: a in s.actors && a.Worker? && a.pc.Hanging? ==>
                a.run < |s.db.runs| && s.db.runs[a.run].status == Running
  }

  lemma RunningNeedsRow(c: Catalog, db: DB, a: Actor, choice: Choice, run: nat)
    requires run < |db.runs| && db.runs[run].status == Running && StatusAfter(db, a, choice, run) != Running
    ensures Row(c, db, a, choice) == Some(run)
  {
    hide NextPc;
  }

  lemma HangsOnRunning(c: Catalog, db: DB, run: nat, pc: Pc, choice: Choice)
    requires StepWorker(c, db, run, pc, choice).1.Hanging? && !pc.Hanging?
    ensures run < |db.runs| && db.runs[run].status == Running && StepWorker(c, db, run, pc, choice).0 == db
  {
    hide SettleRun, RefundRun, HasInFlight, Prepare;
  }

  lemma EventKeepsHangers(c: Catalog, s: Sys, e: Event)
    requires SysOk(c, s) && HangersRun(s)
    ensures HangersRun(Do(c, s, e))
  {
    hide SysOk, StepActor, StatusAfter, Row, Apply;
    var s' := Do(c, s, e);
    forall a | a in s'.actors && a.Worker? && a.pc.Hanging?
      ensures a.run < |s'.db.runs| && s'.db.runs[a.run].status == Running
    {
      if a in s.actors {
        EventWrites(c, s, e, a.run);
        if Steps(c, s, e) && StatusAfter(s.db, s.actors[e.i], e.choice, a.run) != Running {
          RunningNeedsRow(c, s.db, s.actors[e.i], e.choice, a.run);
        }
      } else {
        NewHanger(c, s, e, a);
      }
    }
  }

  lemma NewHanger(c: Catalog, s: Sys, e: Event, a: Actor)
    requires a in Do(c, s, e).actors && a !in s.actors && a.Worker? && a.pc.Hanging?
    ensures var s' := Do(c, s, e); a.run < |s'.db.runs| && s'.db.runs[a.run].status == Running
  {
    hide StepWorker, Apply, Waits;
    var s' := Do(c, s, e);
    var j :| 0 <= j < |s'.actors| && s'.actors[j] == a;
    assert j < |s.actors| ==> s.actors[j] in s.actors;
    if e.Act? && e.i == j {
      HangsOnRunning(c, s.db, s.actors[j].run, s.actors[j].pc, e.choice);
    }
  }

  lemma {:induction false} HangersAlwaysRun(c: Catalog, now: nat, monthStart: nat, events: seq<Event>)
    requires ValidCatalog(c) && monthStart <= now
    ensures HangersRun(After(c, Boot(now, monthStart), events))
    decreases |events|
  {
    hide SysOk, Do;
    if |events| > 0 {
      AlwaysSafe(c, now, monthStart, events[..|events| - 1]);
      HangersAlwaysRun(c, now, monthStart, events[..|events| - 1]);
      EventKeepsHangers(c, After(c, Boot(now, monthStart), events[..|events| - 1]), events[|events| - 1]);
    }
  }

  /** So in every reachable state nobody holds up the worker of a cancelled run. */
  lemma NobodyHangsWhenAsked(c: Catalog, now: nat, monthStart: nat, events: seq<Event>, s: Sys, run: nat)
    requires ValidCatalog(c) && monthStart <= now && s == After(c, Boot(now, monthStart), events) && Asked(s.db, run)
    ensures Worker(run, Hanging) !in s.actors
  {
    AlwaysSafe(c, now, monthStart, events);
    HangersAlwaysRun(c, now, monthStart, events);
    assert RunOk(c, s.db, run);
  }

  lemma CancellationIsAlwaysHonoured(c: Catalog, now: nat, monthStart: nat, events: seq<Event>, s: Sys, i: nat,
                                     run: nat,
                                     at: Local)
    requires ValidCatalog(c) && monthStart <= now && s == After(c, Boot(now, monthStart), events)
    requires i < |s.actors| && s.actors[i] == Worker(run, Looping(at)) && Asked(s.db, run)
    requires run < |s.db.books.reservations| && s.db.books.reservations[run].status == Open
    ensures var end := After(c, s, Acts(i, 4));
            && EndsCancelled(s.db, end.db, run, at) && end.calls == s.calls
            && end.actors == s.actors[i := Worker(run, Finished)]
  {
    hide SysOk, EndsCancelled, After;
    AlwaysSafe(c, now, monthStart, events);
    NobodyHangsWhenAsked(c, now, monthStart, events, s, run);
    CancellationIsHonoured(c, s, i, run, at);
  }
}
