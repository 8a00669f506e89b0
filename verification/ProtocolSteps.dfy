/** Every step of every actor, every client transaction and every crash keeps the invariant. */
module ProtocolSteps {
  import opened Rows
  import opened Tables
  import opened Pricing
  import opened Billing
  import opened RunBlocks
  import opened BooksInvariant
  import opened Transactions
  import opened Consistency
  import opened Machine
  import opened Protocol

  // ----- from one run to the database -----

  ghost predicate SameRun(db: DB, db': DB, run: nat)
    requires Aligned(db) && Aligned(db') && run < |db.runs| <= |db'.runs|
  {
    && db'.runs[run] == db.runs[run]
    && db'.books.reservations[run] == db.books.reservations[run]
    && db'.outbox[run] == db.outbox[run]
  }

  lemma PassedSurvives(c: Catalog, db: DB, db': DB, claim: Option<(nat, nat)>, run: nat)
    requires run < |db.runs| && PassedInFull(c, db, run) && Evolves(db, db', claim)
    requires db'.runs[run].charged == db.runs[run].charged
    ensures PassedInFull(c, db', run)
  {
    assert Identity(db'.runs[run]) == Identity(db.runs[run]);
    var n := |Workflow(c, db.runs[run]).value|;
    forall j | 1 <= j <= n
      ensures StepDone(db, run, j) && StepDone(db', run, j) && db'.executions[(run, j)] == db.executions[(run, j)]
    {
      assert StepDone(db, run, j);
    }
    ChargeSumSame(db, db', run, n);
  }

  lemma SummedSurvives(c: Catalog, db: DB, db': DB, claim: Option<(nat, nat)>, run: nat)
    requires run < |db.runs| && SummedUp(c, db, run) && Evolves(db, db', claim)
    requires SameOutcome(db.runs[run], db'.runs[run])
    ensures SummedUp(c, db', run)
  {
    hide Evolves, PassedInFull;
    if db.runs[run].status == Pass {
      PassedSurvives(c, db, db', claim, run);
    }
    if Stopped(db.runs[run]) {
      var k: nat :| PaidFor(db, run, k);
      PaymentSurvives(db, db', claim, run, k);
    }
  }

  predicate SameOutcome(r: Run, r': Run) {
    r'.status == r.status && r'.error == r.error && r'.charged == r.charged && r'.startedAt == r.startedAt
  }

  lemma PaymentSurvives(db: DB, db': DB, claim: Option<(nat, nat)>, run: nat, k: nat)
    requires run < |db.runs| && PaidFor(db, run, k) && Evolves(db, db', claim)
    requires db'.runs[run].charged == db.runs[run].charged
    ensures PaidFor(db', run, k)
  {
    forall j | 1 <= j <= k
      ensures StepDone(db, run, j) && StepDone(db', run, j) && db'.executions[(run, j)] == db.executions[(run, j)]
    {
      assert StepDone(db, run, j);
    }
    ChargeSumSame(db, db', run, k);
  }

  lemma CheckpointsSurvive(c: Catalog, db: DB, db': DB, claim: Option<(nat, nat)>)
    requires RunsOk(c, db) && Evolves(db, db', claim)
    ensures forall key :: key in db.executions && db'.executions[key] == db.executions[key] ==>
                          CheckpointOk(c, db', key)
  {
    forall key | key in db.executions && db'.executions[key] == db.executions[key] ensures CheckpointOk(c, db', key) {
      assert CheckpointOk(c, db, key);
      assert Identity(db'.runs[key.0]) == Identity(db.runs[key.0]);
    }
  }

  /** A step that touches one run keeps every run's invariant if it keeps that run's. */
  lemma OneRunStep(c: Catalog, db: DB, db': DB, claim: Option<(nat, nat)>, run: nat)
    requires RunsOk(c, db) && Aligned(db') && Evolves(db, db', claim) && |db'.runs| == |db.runs|
    requires forall q :: 0 <= q < |db.runs| && q != run ==> SameRun(db, db', q)
    requires run < |db.runs| ==>
               && Lifecycle(db'.runs[run], db'.books.reservations[run], db'.outbox[run])
               && (SummedUp(c, db', run) || SameOutcome(db.runs[run], db'.runs[run]))
    requires forall key :: key in db'.executions ==>
                             || (key in db.executions && db'.executions[key] == db.executions[key])
                             || CheckpointOk(c, db', key)
    ensures RunsOk(c, db')
  {
    CheckpointsSurvive(c, db, db', claim);
    forall q | 0 <= q < |db'.runs| ensures RunOk(c, db', q) {
      assert RunOk(c, db, q);
      assert Identity(db'.runs[q]) == Identity(db.runs[q]);
      if q != run {
        assert SameRun(db, db', q);
      }
      if !SummedUp(c, db', q) {
        SummedSurvives(c, db, db', claim, q);
      }
    }
  }

  // ----- one lemma for each block -----

  /** Closing a reservation keeps the runs' invariant; a charge needs a run that has started. */
  lemma ReservationStep(c: Catalog, db: DB, db': DB, run: nat, charge: int, status: ReservationStatus)
    requires RunsOk(c, db) && db' == db.(books := db'.books) && run < |db.runs|
    requires Closes(db.books, db'.books, run, charge, status, db.now)
    requires status == Settled ==> Started(db, run)
    requires db.books.reservations[run].settled == 0
    ensures RunsOk(c, db')
  {
    hide PassedInFull, CheckpointOk, Listed;
    assert Evolves(db, db', None);
    assert RunOk(c, db, run);
    OneRunStep(c, db, db', None, run);
  }

  lemma SettleStep(c: Catalog, db: DB, run: nat, charge: int)
    requires RunsOk(c, db) && RowsOk(db.books, db.now) && Started(db, run)
    ensures var result := SettleRun(db.books, run, charge, db.now);
            var db' := WithBooks(db, result);
            RunsOk(c, db') && (result.Committed? ==> SettledFor(db', run, charge))
  {
    var result := SettleRun(db.books, run, charge, db.now);
    SettleCloses(db.books, run, charge, db.now);
    assert ReservationOk(db.books.reservations[run], run, |db.books.wallets|, db.now);
    if result.Committed? {
      ReservationStep(c, db, WithBooks(db, result), run, charge, Settled);
    }
  }

  lemma RefundStep(c: Catalog, db: DB, run: nat)
    requires RunsOk(c, db) && RowsOk(db.books, db.now)
    ensures var result := RefundRun(db.books, run, db.now);
            result.Committed? && RunsOk(c, WithBooks(db, result)) && ReservationClosed(WithBooks(db, result), run)
  {
    RefundCloses(db.books, run, db.now);
    RefundKeepsRuns(c, db, WithBooks(db, RefundRun(db.books, run, db.now)), run);
  }

  lemma RefundKeepsRuns(c: Catalog, db: DB, db': DB, run: nat)
    requires RunsOk(c, db) && RowsOk(db.books, db.now) && db' == db.(books := db'.books)
    requires if run >= |db.books.reservations| || db.books.reservations[run].status != Open then db'.books == db.books
             else Closes(db.books, db'.books, run, 0, Refunded, db.now)
    ensures RunsOk(c, db') && ReservationClosed(db', run)
  {
    if run < |db.runs| && db.books.reservations[run].status == Open {
      assert ReservationOk(db.books.reservations[run], run, |db.books.wallets|, db.now);
      ReservationStep(c, db, db', run, 0, Refunded);
    } else {
      assert db' == db;
    }
  }

  /** What an actor must know before it writes a closing status. */
  ghost predicate MayClose(c: Catalog, db: DB, run: nat, w: Closing) {
    && Started(db, run)
    && match w
       case Passed(total, _, _, _) =>
         && SettledFor(db, run, total)
         && var workflow := Workflow(c, db.runs[run]);
         && workflow.Some? && StepsDone(db, run, |workflow.value|) && total == ChargeSum(db, run, |workflow.value|)
       case OutOfBudget(total, _) =>
         SettledFor(db, run, total) && exists k: nat :: StepsDone(db, run, k) && total == ChargeSum(db, run, k)
       case CancelHonoured(total, _) =>
         SettledFor(db, run, total) && exists k: nat :: StepsDone(db, run, k) && total == ChargeSum(db, run, k)
       case OperatorSettled(charge) => SettledFor(db, run, charge)
       case BlockedAmbiguous => true
       case _ => ReservationClosed(db, run)
  }

  lemma {:induction false} ChargeSumFrame(db: DB, db': DB, run: nat, k: nat)
    requires db'.executions == db.executions
    ensures ChargeSum(db', run, k) == ChargeSum(db, run, k)
  {
    if k > 0 {
      ChargeSumFrame(db, db', run, k - 1);
    }
  }

  lemma CloseStep(c: Catalog, db: DB, run: nat, w: Closing)
    requires RunsOk(c, db) && MayClose(c, db, run, w)
    ensures RunsOk(c, Close(db, run, w))
  {
    hide CheckpointOk, Listed;
    var db' := Close(db, run, w);
    CloseEvolves(db, run, w);
    assert RunOk(c, db, run);
    if w.Passed? {
      var n := |Workflow(c, db.runs[run]).value|;
      ChargeSumFrame(db, db', run, n);
      assert forall j :: 1 <= j <= n ==> StepDone(db, run, j) ==> StepDone(db', run, j);
      assert Workflow(c, db'.runs[run]) == Workflow(c, db.runs[run]);
      assert PassedInFull(c, db', run);
    } else if w.OutOfBudget? || w.CancelHonoured? {
      var k: nat :| StepsDone(db, run, k) && w.total == ChargeSum(db, run, k);
      ChargeSumFrame(db, db', run, k);
      assert forall j :: 1 <= j <= k ==> StepDone(db, run, j) ==> StepDone(db', run, j);
      assert PaidFor(db', run, k);
    }
    OneRunStep(c, db, db', None, run);
  }

  lemma BeginStep(c: Catalog, db: DB, run: nat)
    requires RunsOk(c, db) && Begin(db, run).Committed?
    ensures RunsOk(c, Begin(db, run).value.0)
    ensures Begin(db, run).value.1 ==> Started(Begin(db, run).value.0, run)
  {
    hide PassedInFull, HasInFlight, CheckpointOk, Listed;
    var db' := Begin(db, run).value.0;
    BeginEvolves(db, run);
    assert RunOk(c, db, run);
    OneRunStep(c, db, db', None, run);
  }

  /** A worker that gets past its predecessors' checkpoints inserts its own: no unique constraint
      can abort it unless a competitor inserted the same row first. */
  lemma InsertIsFresh(c: Catalog, db: DB, run: nat, k: nat, skill: string)
    requires RunsOk(c, db) && Started(db, run) && SkillAt(c, db.runs[run], k) == Some(skill)
    requires (run, k + 1) !in db.executions
    ensures Prepare(db, run, k + 1, skill, false).1 == Fresh
  {
    assert RunOk(c, db, run);
    forall key | key in db.executions && key.0 == run ensures db.executions[key].skill != skill {
      assert CheckpointOk(c, db, key);
      var workflow := Workflow(c, db.runs[run]).value;
      assert workflow[key.1 - 1] == db.executions[key].skill;
      assert key == (run, key.1);
    }
  }

  lemma InsertStep(c: Catalog, db: DB, db': DB, run: nat, at: Local, skill: string)
    requires RunsOk(c, db) && LocalOk(c, db, run, at) && SkillAt(c, db.runs[run], at.k) == Some(skill)
    requires (run, at.k + 1) !in db.executions
    requires db' == db.(executions := db.executions[(run, at.k + 1) := InFlight(skill)])
    ensures RunsOk(c, db') && Owns(c, db', run, at)
  {
    hide RunOk, CheckpointOk, Owns, LocalOk, Evolves, SkillAt;
    LocalIsStarted(c, db, run, at);
    assert RunOk(c, db, run);
    InsertEvolves(db, db', (run, at.k + 1), skill);
    LocalSurvives(c, db, db', None, run, at);
    InsertedIsOk(c, db', run, at, skill);
    RunOkParts(c, db, run);
    OneRunStep(c, db, db', None, run);
  }

  lemma InsertEvolves(db: DB, db': DB, key: (nat, nat), skill: string)
    requires key !in db.executions && db' == db.(executions := db.executions[key := InFlight(skill)])
    ensures Evolves(db, db', None)
  {
  }

  lemma LocalIsStarted(c: Catalog, db: DB, run: nat, at: Local)
    requires LocalOk(c, db, run, at)
    ensures Started(db, run)
  {
  }

  lemma InsertedIsOk(c: Catalog, db: DB, run: nat, at: Local, skill: string)
    requires LocalOk(c, db, run, at) && SkillAt(c, db.runs[run], at.k) == Some(skill)
    requires (run, at.k + 1) in db.executions && db.executions[(run, at.k + 1)] == InFlight(skill)
    ensures CheckpointOk(c, db, (run, at.k + 1)) && Owns(c, db, run, at)
  {
    assert at.k > 0 ==> StepDone(db, run, at.k);
  }

  lemma RunOkParts(c: Catalog, db: DB, run: nat)
    requires run < |db.runs| && Aligned(db) && RunOk(c, db, run)
    ensures Lifecycle(db.runs[run], db.books.reservations[run], db.outbox[run])
  {
  }

  lemma PrepareStepKeeps(c: Catalog, db: DB, run: nat, at: Local, skill: string)
    requires RunsOk(c, db) && LocalOk(c, db, run, at) && SkillAt(c, db.runs[run], at.k) == Some(skill)
    ensures var db' := Prepare(db, run, at.k + 1, skill, false).0;
            && RunsOk(c, db')
            && LocalOk(c, db', run, at)
            && ((run, at.k + 1) !in db.executions ==> Owns(c, db', run, at))
  {
    hide RunsOk;
    if (run, at.k + 1) !in db.executions {
      InsertIsFresh(c, db, run, at.k, skill);
      InsertStep(c, db, Prepare(db, run, at.k + 1, skill, false).0, run, at, skill);
    }
  }

  lemma ChargeIsNonNegative(c: Catalog, r: Run, k: nat, answer: Answer)
    requires ValidCatalog(c)
    ensures ChargeFor(c, r, k, answer) >= 0
  {
    var skill := SkillAt(c, r, k);
    if skill.Some? {
      ChargeIsMonotone(c.skills[skill.value], answer.tokensIn, answer.tokensOut, answer.tokensIn, answer.tokensOut);
    }
  }

  lemma RecordStepKeeps(c: Catalog, db: DB, run: nat, at: Local, answer: Answer, charge: int)
    requires RunsOk(c, db) && Owns(c, db, run, at)
    requires charge >= 0 && charge == ChargeFor(c, db.runs[run], at.k, answer)
    ensures var db' := Checkpoint(db, run, at.k + 1, answer, charge);
            && RunsOk(c, db')
            && LocalOk(c, db', run, at)
            && StepDone(db', run, at.k + 1) && db'.executions[(run, at.k + 1)].charged == charge
  {
    hide RunOk, CheckpointOk, LocalOk, Evolves, SkillAt, Owns;
    OwnsParts(c, db, run, at);
    assert RunOk(c, db, run) && CheckpointOk(c, db, (run, at.k + 1));
    var db' := Checkpoint(db, run, at.k + 1, answer, charge);
    var claim := Some((run, at.k + 1));
    RecordEvolves(db, run, at.k + 1, answer, charge);
    LocalSurvives(c, db, db', claim, run, at);
    RecordedIsOk(c, db, run, at, answer, charge);
    RunOkParts(c, db, run);
    OneRunStep(c, db, db', claim, run);
  }

  lemma OwnsParts(c: Catalog, db: DB, run: nat, at: Local)
    requires Owns(c, db, run, at)
    ensures LocalOk(c, db, run, at) && run < |db.runs|
    ensures (run, at.k + 1) in db.executions && db.executions[(run, at.k + 1)].InFlight?
  {
  }

  lemma RecordedIsOk(c: Catalog, db: DB, run: nat, at: Local, answer: Answer, charge: int)
    requires CheckpointOk(c, db, (run, at.k + 1)) && LocalOk(c, db, run, at)
    requires charge >= 0 && charge == ChargeFor(c, db.runs[run], at.k, answer)
    ensures CheckpointOk(c, Checkpoint(db, run, at.k + 1, answer, charge), (run, at.k + 1))
  {
    assert at.k > 0 ==> StepDone(db, run, at.k);
  }

  lemma CancelStep(c: Catalog, db: DB, run: nat, tenant: nat)
    requires RunsOk(c, db) && RequestCancel(db, run, tenant).Committed?
    requires forall r :: 0 <= r < |db.books.reservations| && db.books.reservations[r].status != Settled ==>
                           db.books.reservations[r].settled == 0
    ensures RunsOk(c, RequestCancel(db, run, tenant).value.0)
  {
    hide PassedInFull, CheckpointOk, Listed;
    var db' := RequestCancel(db, run, tenant).value.0;
    CancelEvolves(db, run, tenant);
    assert RunOk(c, db, run);
    OneRunStep(c, db, db', None, run);
  }

  lemma ExpireStep(c: Catalog, db: DB, run: nat)
    requires RunsOk(c, db) && ReservationClosed(db, run)
    ensures RunsOk(c, Expire(db, run))
  {
    hide PassedInFull, CheckpointOk, Listed;
    ExpireEvolves(db, run);
    assert run < |db.runs| ==> RunOk(c, db, run);
    OneRunStep(c, db, Expire(db, run), None, run);
  }

  lemma FindEventIsOwn(db: DB, run: nat)
    requires Aligned(db)
    ensures FindEvent(db, run) == if run < |db.runs| then Some(run) else None
  {
    assert run < |db.runs| ==> db.outbox[run].run == run;
  }

  lemma DispatchStep(c: Catalog, db: DB, run: nat)
    requires RunsOk(c, db)
    ensures RunsOk(c, Dispatched(db, run))
  {
    var db' := Dispatched(db, run);
    FindEventIsOwn(db, run);
    DispatchEvolves(db, run);
    if run < |db.runs| {
      var r := db.runs[run];
      assert RunOk(c, db, run);
      assert db'.outbox == db.outbox[run := db.outbox[run].(dispatched := true)];
      assert db'.runs == if r.status == PendingDispatch then db.runs[run := r.(status := Queued)] else db.runs;
      assert db' == db.(outbox := db'.outbox, runs := db'.runs);
      DispatchKeepsRuns(c, db, db', run);
    }
  }

  lemma DispatchKeepsRuns(c: Catalog, db: DB, db': DB, run: nat)
    requires RunsOk(c, db) && run < |db.runs| && Evolves(db, db', None)
    requires db' == db.(outbox := db.outbox[run := db.outbox[run].(dispatched := true)], runs := db'.runs)
    requires db'.runs == if db.runs[run].status == PendingDispatch then db.runs[run := db.runs[run].(status := Queued)]
                         else db.runs
    ensures RunsOk(c, db')
  {
    assert RunOk(c, db, run);
    OneRunStep(c, db, db', None, run);
  }

  lemma DispatchFailureStep(c: Catalog, db: DB, run: nat)
    requires RunsOk(c, db)
    ensures RunsOk(c, DispatchFailed(db, run))
  {
    hide PassedInFull, CheckpointOk, Listed;
    DispatchEvolves(db, run);
    FindEventIsOwn(db, run);
    assert run < |db.runs| ==> RunOk(c, db, run);
    OneRunStep(c, db, DispatchFailed(db, run), None, run);
  }
}
