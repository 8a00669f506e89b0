/** What a worker knows at each block of execute_run when nobody else writes its run: its loop
    variables are those its checkpoints rebuild, and a failure it is about to report would recur. */
module Attempts {
  import opened Rows
  import opened Tables
  import opened Pricing
  import opened Billing
  import opened RunBlocks
  import opened BooksInvariant
  import opened Transactions
  import opened Consistency
  import opened Machine
  import opened Protocol
  import opened ProtocolSteps
  import opened Executor
  import opened Isolation

  ghost predicate Active(db: DB, run: nat) {
    run < |db.runs| && db.runs[run].status == Running && db.runs[run].startedAt.Some?
  }

  ghost predicate NotOpen(db: DB, run: nat) {
    run < |db.books.reservations| && db.books.reservations[run].status != Open
  }

  /** A waiting run has no RUNNING checkpoint, a RUNNING one has been started, and no checkpoint has a
      negative charge. */
  ghost predicate OwnOk(db: DB, run: nat) {
    && run < |db.runs|
    && (db.runs[run].status == Queued ==> !HasInFlight(db, run))
    && (db.runs[run].status == Running ==> db.runs[run].startedAt.Some?)
    && (forall key :: key in db.executions && key.0 == run && db.executions[key].Completed? ==>
                      db.executions[key].charged >= 0)
  }

  lemma ReachableIsOwnOk(c: Catalog, db: DB, run: nat)
    requires RunsOk(c, db) && run < |db.runs|
    ensures OwnOk(db, run)
  {
    assert RunOk(c, db, run);
    forall key | key in db.executions && key.0 == run
      ensures db.runs[run].status != Queued && (db.executions[key].Completed? ==> db.executions[key].charged >= 0)
    {
      assert CheckpointOk(c, db, key);
    }
  }

  /** The worker has rebuilt `at` from checkpoints, and its loop head decides `pc`. */
  ghost predicate AtHead(c: Catalog, db: DB, run: nat, at: Local, pc: Pc) {
    Active(db, run) && Rebuilds(c, db, run, at) && AtLoopHead(c, db.runs[run], at) == pc
  }

  /** Checkpoint k is the run's one RUNNING checkpoint. */
  predicate OnlyInFlight(db: DB, run: nat, k: nat) {
    && (run, k) in db.executions && db.executions[(run, k)].InFlight?
    && forall key :: key in db.executions && key.0 == run && db.executions[key].InFlight? ==> key.1 == k
  }

  /** A fresh attempt would come to the same failure. */
  ghost predicate FailsAgain(c: Catalog, db: DB, run: nat, at: Local, code: string) {
    && Active(db, run) && Rebuilds(c, db, run, at)
    && var head := AtLoopHead(c, db.runs[run], at);
    && (|| head == Failing(code)
        || ((head.Preparing? || head.Settling?) && NextPc(c, db, run, head, Proceed) == Failing(code)))
  }

  ghost predicate FailedAgain(c: Catalog, db: DB, run: nat, code: string) {
    Active(db, run) && (HasInFlight(db, run) || exists at :: FailsAgain(c, db, run, at, code))
  }

  ghost predicate Knows(c: Catalog, db: DB, run: nat, pc: Pc) {
    match pc
    case Starting => true
    case Looping(at) => Active(db, run) && Rebuilds(c, db, run, at) && !HasInFlight(db, run)
    case Preparing(at) => AtHead(c, db, run, at, pc) && !HasInFlight(db, run)
    case Calling(at) => AtHead(c, db, run, at, Preparing(at)) && OnlyInFlight(db, run, at.k + 1)
    case Recording(at, _) => AtHead(c, db, run, at, Preparing(at)) && OnlyInFlight(db, run, at.k + 1)
    case Settling(at, _) => AtHead(c, db, run, at, pc) && !HasInFlight(db, run)
    case Concluding(at, verdict) =>
      AtHead(c, db, run, at, Settling(at, verdict)) && NotOpen(db, run) && !HasInFlight(db, run)
    case Failing(code) => FailedAgain(c, db, run, code)
    case MarkingFailed(code) => FailedAgain(c, db, run, code) && NotOpen(db, run)
    case MarkingBlocked => false
    case Hanging => Active(db, run) && HasInFlight(db, run)
    case Logging => run < |db.runs| && db.runs[run].status !in {Queued, Running}
    case Finished => run < |db.runs| && db.runs[run].status !in {Queued, Running}
  }

  // ----- one block -----

  lemma InFlightIsFound(db: DB, run: nat, k: nat)
    requires (run, k) in db.executions && db.executions[(run, k)].InFlight?
    ensures HasInFlight(db, run)
  {
    assert (run, k).0 == run;
  }

  lemma NoneInFlight(db: DB, run: nat, k: nat)
    requires !HasInFlight(db, run)
    ensures (run, k) in db.executions ==> db.executions[(run, k)].Completed?
  {
    assert (run, k).0 == run;
  }

  lemma HeadHasSkill(c: Catalog, r: Run, at: Local)
    requires AtLoopHead(c, r, at) == Preparing(at)
    ensures SkillAt(c, r, at.k).Some?
  {
  }

  ghost predicate Holds(c: Catalog, run: nat, next: (DB, Pc)) {
    OwnOk(next.0, run) && Knows(c, next.0, run, next.1)
  }

  /** Past a PASS checkpoint a worker either goes on with rebuilt variables or fails as it would again. */
  lemma CheckpointKnows(c: Catalog, db: DB, run: nat, at: Local, e: Execution)
    requires AtHead(c, db, run, at, Preparing(at)) && SkillAt(c, db.runs[run], at.k).Some? && !HasInFlight(db, run)
    requires (run, at.k + 1) in db.executions && e == db.executions[(run, at.k + 1)] && e.Completed?
    ensures Knows(c, db, run, Account(db.runs[run], at, SkillAt(c, db.runs[run], at.k).value, e.answer, e.charged))
  {
    hide AtLoopHead, SettleRun, RefundRun, Begin, ChargeFor, SkillAt, HasInFlight;
    var pc := Account(db.runs[run], at, SkillAt(c, db.runs[run], at.k).value, e.answer, e.charged);
    if pc.Looping? {
      assert Rebuilt(c, db, run, at.k + 1) == Some(pc.at);
    } else {
      assert NextPc(c, db, run, Preparing(at), Proceed) == pc;
      assert FailsAgain(c, db, run, at, pc.code);
    }
  }

  lemma StartingKnows(c: Catalog, db: DB, run: nat)
    requires OwnOk(db, run)
    ensures Holds(c, run, StepWorker(c, db, run, Starting, Proceed))
  {
    var r := db.runs[run];
    if r.status == Running && HasInFlight(db, run) {
      assert StepWorker(c, db, run, Starting, Proceed) == (db, Hanging);
    } else {
      var begun := Begin(db, run).value.0;
      assert begun.executions == db.executions;
      SameInFlight(db, begun, run);
      assert Rebuilt(c, begun, run, 0) == Some(NOTHING_DONE);
      hide HasInFlight;
    }
  }

  lemma LoopingKnows(c: Catalog, db: DB, run: nat, at: Local)
    requires OwnOk(db, run) && Knows(c, db, run, Looping(at))
    ensures Holds(c, run, StepWorker(c, db, run, Looping(at), Proceed))
  {
    hide SettleRun, RefundRun, Begin, HasInFlight;
    var next := StepWorker(c, db, run, Looping(at), Proceed);
    if next.1.Failing? {
      assert FailsAgain(c, db, run, at, next.1.code);
    }
  }

  lemma InsertKnows(c: Catalog, db: DB, db': DB, run: nat, at: Local, skill: string)
    requires AtHead(c, db, run, at, Preparing(at)) && OwnOk(db, run) && !HasInFlight(db, run)
    requires (run, at.k + 1) !in db.executions
    requires db' == db.(executions := db.executions[(run, at.k + 1) := InFlight(skill)])
    ensures Holds(c, run, (db', Calling(at)))
  {
    hide AtLoopHead;
    ReplayFrame(c, db, db', run, at.k);
  }

  lemma PreparingGoes(c: Catalog, db: DB, run: nat, at: Local, skill: string, key: (nat, nat))
    requires run < |db.runs| && SkillAt(c, db.runs[run], at.k) == Some(skill) && !HasInFlight(db, run)
    requires key == (run, at.k + 1)
    ensures var next := StepWorker(c, db, run, Preparing(at), Proceed);
            if key in db.executions then
              && db.executions[key].Completed?
              && next == (db, Account(db.runs[run], at, skill, db.executions[key].answer, db.executions[key].charged))
            else
              || next == (db.(executions := db.executions[key := InFlight(skill)]), Calling(at))
              || next == (db, Failing(DUPLICATE_ROW))
  {
    NoneInFlight(db, run, at.k + 1);
    hide AtLoopHead, SettleRun, RefundRun, Begin, Account, HasInFlight, SkillAt;
  }

  lemma PreparingKnows(c: Catalog, db: DB, run: nat, at: Local)
    requires OwnOk(db, run) && Knows(c, db, run, Preparing(at))
    ensures Holds(c, run, StepWorker(c, db, run, Preparing(at), Proceed))
  {
    HeadHasSkill(c, db.runs[run], at);
    hide AtLoopHead, Account, HasInFlight, SkillAt, Rebuilds, OwnOk, StepWorker, NextPc;
    var skill := SkillAt(c, db.runs[run], at.k).value;
    var next := StepWorker(c, db, run, Preparing(at), Proceed);
    PreparingGoes(c, db, run, at, skill, (run, at.k + 1));
    if (run, at.k + 1) in db.executions {
      CheckpointKnows(c, db, run, at, db.executions[(run, at.k + 1)]);
    } else if next.1.Calling? {
      InsertKnows(c, db, next.0, run, at, skill);
    } else {
      NextIsFailing(c, db, run, Preparing(at), DUPLICATE_ROW);
      assert FailsAgain(c, db, run, at, DUPLICATE_ROW);
    }
  }

  lemma CallingKnows(c: Catalog, db: DB, run: nat, at: Local, choice: Choice)
    requires OwnOk(db, run) && Knows(c, db, run, Calling(at)) && (choice.Reply? || choice.Raise?)
    ensures Holds(c, run, StepWorker(c, db, run, Calling(at), choice))
  {
    InFlightIsFound(db, run, at.k + 1);
    hide AtLoopHead, SkillAt, SettleRun, RefundRun, Begin, HasInFlight, Rebuilds, OwnOk;
  }

  lemma CompletedKnows(c: Catalog, db: DB, db': DB, run: nat, at: Local, answer: Answer, charge: int)
    requires AtHead(c, db, run, at, Preparing(at)) && OwnOk(db, run) && OnlyInFlight(db, run, at.k + 1) && charge >= 0
    requires db' == Checkpoint(db, run, at.k + 1, answer, charge)
    ensures AtHead(c, db', run, at, Preparing(at)) && OwnOk(db', run) && !HasInFlight(db', run)
    ensures db'.runs == db.runs && (run, at.k + 1) in db.executions && (run, at.k + 1) in db'.executions
    ensures db'.executions[(run, at.k + 1)] == Completed(db.executions[(run, at.k + 1)].skill, answer, charge)
  {
    hide AtLoopHead;
    ReplayFrame(c, db, db', run, at.k);
  }

  lemma RecordingGoes(c: Catalog, db: DB, run: nat, at: Local, answer: Answer, skill: string, charge: int)
    requires run < |db.runs| && SkillAt(c, db.runs[run], at.k) == Some(skill)
    requires charge == ChargeFor(c, db.runs[run], at.k, answer)
    ensures StepWorker(c, db, run, Recording(at, answer), Proceed)
         == (Checkpoint(db, run, at.k + 1, answer, charge), Account(db.runs[run], at, skill, answer, charge))
  {
    hide AtLoopHead, SettleRun, RefundRun, Begin, ChargeFor, SkillAt, Account, Checkpoint;
  }

  lemma RecordingKnows(c: Catalog, db: DB, run: nat, at: Local, answer: Answer)
    requires ValidCatalog(c) && OwnOk(db, run) && Knows(c, db, run, Recording(at, answer))
    ensures Holds(c, run, StepWorker(c, db, run, Recording(at, answer), Proceed))
  {
    hide AtLoopHead, ChargeFor, SkillAt, HasInFlight, Account, Knows, OwnOk, Rebuilds, Checkpoint;
    hide OnlyInFlight, ValidCatalog, StepWorker;
    RecordingIsAtHead(c, db, run, at, answer);
    HeadHasSkill(c, db.runs[run], at);
    var charge := ChargeFor(c, db.runs[run], at.k, answer);
    var db' := Checkpoint(db, run, at.k + 1, answer, charge);
    ChargeIsNonNegative(c, db.runs[run], at.k, answer);
    RecordingGoes(c, db, run, at, answer, SkillAt(c, db.runs[run], at.k).value, charge);
    CompletedKnows(c, db, db', run, at, answer, charge);
    CheckpointKnows(c, db', run, at, db'.executions[(run, at.k + 1)]);
  }

  lemma RecordingIsAtHead(c: Catalog, db: DB, run: nat, at: Local, answer: Answer)
    requires Knows(c, db, run, Recording(at, answer))
    ensures AtHead(c, db, run, at, Preparing(at)) && OnlyInFlight(db, run, at.k + 1)
  {
  }

  /** Rebuilt totals stay within the budget. */
  lemma {:induction false} RebuiltInRange(c: Catalog, db: DB, run: nat, k: nat)
    requires OwnOk(db, run) && db.runs[run].maxSpend >= 0 && Rebuilt(c, db, run, k).Some?
    ensures 0 <= Rebuilt(c, db, run, k).value.total <= db.runs[run].maxSpend
  {
    hide AtLoopHead, HasInFlight;
    if k > 0 {
      RebuiltInRange(c, db, run, k - 1);
      assert (run, k).0 == run;
    }
  }

  lemma HoldCoversRun(db: DB, run: nat)
    requires RowsOk(db.books, db.now) && Aligned(db) && run < |db.runs|
    ensures run < |db.books.reservations| && db.books.reservations[run].amount == db.runs[run].maxSpend > 0
  {
    assert ReservationOk(db.books.reservations[run], run, |db.books.wallets|, db.now);
  }

  /** A settlement of a rebuilt total fails only because the reservation is no longer open. */
  lemma RebuiltSettles(c: Catalog, db: DB, run: nat, at: Local)
    requires RowsOk(db.books, db.now) && Aligned(db) && OwnOk(db, run) && Rebuilds(c, db, run, at)
    ensures if NotOpen(db, run) then SettleRun(db.books, run, at.total, db.now) == RolledBack(ReservationNotOpen)
            else run < |db.books.reservations|
                 && SettleRun(db.books, run, at.total, db.now).Committed?
                 && run < |SettleRun(db.books, run, at.total, db.now).value.reservations|
                 && SettleRun(db.books, run, at.total, db.now).value.reservations[run].status == Settled
  {
    HoldCoversRun(db, run);
    RebuiltInRange(c, db, run, at.k);
    hide AtLoopHead, HasInFlight, RowsOk, Aligned, Rebuilt, OwnOk;
    SettleCloses(db.books, run, at.total, db.now);
  }

  /** A block that changes only the books leaves what the loop rebuilds. */
  lemma BooksKeepHead(c: Catalog, db: DB, db': DB, run: nat, at: Local, pc: Pc)
    requires db' == db.(books := db'.books) && AtHead(c, db, run, at, pc)
    ensures AtHead(c, db', run, at, pc) && (HasInFlight(db', run) <==> HasInFlight(db, run))
  {
    hide AtLoopHead;
    ReplayFrame(c, db, db', run, at.k);
  }

  lemma SettlingSteps(c: Catalog, db: DB, run: nat, at: Local, verdict: Verdict)
    requires run < |db.runs|
    ensures var result := SettleRun(db.books, run, at.total, db.now);
            && StepWorker(c, db, run, Settling(at, verdict), Proceed).0 == WithBooks(db, result)
            && StepWorker(c, db, run, Settling(at, verdict), Proceed).1
            == if result.Committed? then Concluding(at, verdict)
               else Failing(if result.error == ChargeExceedsReservation then OVER_RESERVED else NOT_OPEN)
  {
    hide SettleRun, AtLoopHead, Begin, RefundRun, SkillAt;
  }

  lemma SettlingGoes(c: Catalog, db: DB, run: nat, at: Local, verdict: Verdict)
    requires RowsOk(db.books, db.now) && Aligned(db) && OwnOk(db, run) && Rebuilds(c, db, run, at)
    ensures var (db', pc) := StepWorker(c, db, run, Settling(at, verdict), Proceed);
            && db' == db.(books := db'.books)
            && if NotOpen(db, run) then db' == db && pc == Failing(NOT_OPEN)
               else NotOpen(db', run) && pc == Concluding(at, verdict)
  {
    assert run < |db.runs|;
    SettlingSteps(c, db, run, at, verdict);
    hide StepWorker, RowsOk, Aligned, SettleRun, HasInFlight, Rebuilds, OwnOk;
    RebuiltSettles(c, db, run, at);
  }

  lemma SettlingKnows(c: Catalog, db: DB, run: nat, at: Local, verdict: Verdict)
    requires RowsOk(db.books, db.now) && Aligned(db) && OwnOk(db, run) && Knows(c, db, run, Settling(at, verdict))
    ensures Holds(c, run, StepWorker(c, db, run, Settling(at, verdict), Proceed))
  {
    SettlingGoes(c, db, run, at, verdict);
    var next := StepWorker(c, db, run, Settling(at, verdict), Proceed);
    BooksKeepHead(c, db, next.0, run, at, Settling(at, verdict));
    if NotOpen(db, run) {
      NextIsFailing(c, db, run, Settling(at, verdict), NOT_OPEN);
    }
    hide RowsOk, Aligned, AtLoopHead, StepWorker, NextPc, HasInFlight, Rebuilds;
    if next.1.Failing? {
      assert FailsAgain(c, db, run, at, NOT_OPEN);
    }
  }

  lemma NextIsFailing(c: Catalog, db: DB, run: nat, pc: Pc, code: string)
    requires StepWorker(c, db, run, pc, Proceed).1 == Failing(code)
    ensures NextPc(c, db, run, pc, Proceed) == Failing(code)
  {
    hide NextPc, Apply, WorkerTxn;
  }

  lemma ClosingGoes(c: Catalog, db: DB, run: nat, pc: Pc)
    requires run < |db.runs|
    ensures pc.Concluding? ==>
              StepWorker(c, db, run, pc, Proceed) == (Close(db, run, ClosingOf(pc.at, pc.verdict)), Logging)
    ensures pc.MarkingFailed? ==> StepWorker(c, db, run, pc, Proceed) == (Close(db, run, Failed(pc.code)), Finished)
    ensures pc.Logging? || pc.Finished? ==> StepWorker(c, db, run, pc, Proceed) == (db, Finished)
    ensures pc.Hanging? ==> StepWorker(c, db, run, pc, Proceed) == (db, Hanging)
  {
    hide Close, ClosingOf, AtLoopHead, SettleRun, RefundRun, Begin, SkillAt;
  }

  lemma ClosingKnows(c: Catalog, db: DB, run: nat, pc: Pc)
    requires OwnOk(db, run) && (pc.Concluding? || pc.MarkingFailed? || pc.Logging? || Over(pc))
    requires Knows(c, db, run, pc)
    ensures Holds(c, run, StepWorker(c, db, run, pc, Proceed))
  {
    assert run < |db.runs|;
    hide Knows, Holds, OwnOk, Close, StepWorker;
    ClosingGoes(c, db, run, pc);
    if pc.Concluding? {
      CloseEnds(db, run, ClosingOf(pc.at, pc.verdict));
    } else if pc.MarkingFailed? {
      CloseEnds(db, run, Failed(pc.code));
    }
    EndedKnows(c, run, pc, db);
    EndedKnows(c, run, pc, StepWorker(c, db, run, pc, Proceed).0);
  }

  /** What Knows says of a worker past its run's end, or hanging. */
  lemma EndedKnows(c: Catalog, run: nat, pc: Pc, db: DB)
    requires OwnOk(db, run)
    ensures db.runs[run].status !in {Queued, Running} ==> Holds(c, run, (db, Logging)) && Holds(c, run, (db, Finished))
    ensures (pc.Logging? || pc.Finished?) && Knows(c, db, run, pc) ==> db.runs[run].status !in {Queued, Running}
    ensures pc.Hanging? && Knows(c, db, run, pc) ==> Holds(c, run, (db, Hanging))
  {
  }

  lemma CloseEnds(db: DB, run: nat, w: Closing)
    requires OwnOk(db, run)
    ensures var db' := Close(db, run, w);
            OwnOk(db', run) && run < |db'.runs| && db'.runs[run].status !in {Queued, Running}
  {
    hide HasInFlight;
  }

  /** The refund of a failing run leaves its failure as it was. */
  lemma RefundKeepsFailure(c: Catalog, db: DB, db': DB, run: nat, at: Local, code: string)
    requires RowsOk(db.books, db.now) && Aligned(db) && OwnOk(db, run) && FailsAgain(c, db, run, at, code)
    requires db' == WithBooks(db, RefundRun(db.books, run, db.now))
    ensures FailsAgain(c, db', run, at, code)
  {
    hide RowsOk, Aligned, AtLoopHead, Rebuilds, OwnOk, SettleRun, Post, HasInFlight;
    var head := AtLoopHead(c, db.runs[run], at);
    BooksKeepHead(c, db, db', run, at, head);
    if head.Settling? {
      HeadKeepsLocals(c, db.runs[run], at);
      RebuiltSettles(c, db, run, at);
      RefundCloses(db.books, run, db.now);
      assert db.(books := db.books) == db;
    } else {
      hide RefundRun, Begin, SkillAt;
    }
  }

  lemma HeadKeepsLocals(c: Catalog, r: Run, at: Local)
    requires AtLoopHead(c, r, at).Settling?
    ensures AtLoopHead(c, r, at).at == at
  {
  }

  lemma FailingGoes(c: Catalog, db: DB, run: nat, code: string)
    requires RowsOk(db.books, db.now) && run < |db.runs| && run < |db.books.reservations|
    ensures var db' := WithBooks(db, RefundRun(db.books, run, db.now));
            && StepWorker(c, db, run, Failing(code), Proceed) == (db', MarkingFailed(code))
            && NotOpen(db', run) && db' == db.(books := db'.books)
  {
    RefundCloses(db.books, run, db.now);
    hide RowsOk, HasInFlight, SettleRun, Begin, AtLoopHead, SkillAt, Post, RefundRun;
  }

  lemma FailingKnows(c: Catalog, db: DB, run: nat, code: string)
    requires RowsOk(db.books, db.now) && Aligned(db) && OwnOk(db, run) && Knows(c, db, run, Failing(code))
    ensures Holds(c, run, StepWorker(c, db, run, Failing(code), Proceed))
  {
    var db' := WithBooks(db, RefundRun(db.books, run, db.now));
    FailingGoes(c, db, run, code);
    SameInFlight(db, db', run);
    hide RowsOk, HasInFlight, FailsAgain, RefundRun, StepWorker;
    if !HasInFlight(db, run) {
      var at :| FailsAgain(c, db, run, at, code);
      RefundKeepsFailure(c, db, db', run, at, code);
    }
  }

  /** Every block of a worker keeps what it knows. */
  lemma BlockKnows(c: Catalog, db: DB, run: nat, pc: Pc, provider: nat -> Response)
    requires ValidCatalog(c) && RowsOk(db.books, db.now) && Aligned(db) && OwnOk(db, run) && Knows(c, db, run, pc)
    ensures Holds(c, run, Stepped(c, db, run, pc, provider))
  {
    hide RowsOk, Aligned, StepWorker, OwnOk, ValidCatalog, Holds;
    match pc
    case Starting => StartingKnows(c, db, run);
    case Looping(at) => LoopingKnows(c, db, run, at);
    case Preparing(at) => PreparingKnows(c, db, run, at);
    case Calling(at) => CallingKnows(c, db, run, at, ChoiceAt(pc, provider));
    case Recording(at, answer) => RecordingKnows(c, db, run, at, answer);
    case Settling(at, verdict) => SettlingKnows(c, db, run, at, verdict);
    case Failing(code) => FailingKnows(c, db, run, code);
    case _ => ClosingKnows(c, db, run, pc);
  }

  // ----- everyone else's blocks -----

  lemma HeadSurvives(c: Catalog, db: DB, db': DB, run: nat, at: Local)
    requires Active(db, run) && Rebuilds(c, db, run, at) && Alike(db, db', run) && db'.runs[run] == db.runs[run]
    ensures Active(db', run) && Rebuilds(c, db', run, at)
  {
    hide AtLoopHead, UsageOf;
    assert forall j: nat :: (run, j).0 == run;
    ReplayFrame(c, db, db', run, at.k);
  }

  lemma FailureSurvives(c: Catalog, db: DB, db': DB, run: nat, at: Local, code: string)
    requires RowsOk(db.books, db.now) && RowsOk(db'.books, db'.now)
    requires FailsAgain(c, db, run, at, code) && Alike(db, db', run) && db'.runs[run] == db.runs[run]
    ensures FailsAgain(c, db', run, at, code)
  {
    HeadSurvives(c, db, db', run, at);
    var head := AtLoopHead(c, db.runs[run], at);
    hide RowsOk, AtLoopHead, Rebuilds, NextPc, Apply, Active;
    if head.Preparing? {
      PrepareAlike(c, db, db', run, head.at);
    } else if head.Settling? {
      SettleAlike(c, db, db', run, head.at, head.verdict);
    }
  }

  /** What a worker knows survives any transaction that does not write its run. */
  lemma OthersKeepKnowledge(c: Catalog, db: DB, db': DB, run: nat, pc: Pc)
    requires RowsOk(db.books, db.now) && RowsOk(db'.books, db'.now)
    requires OwnOk(db, run) && Knows(c, db, run, pc) && Alike(db, db', run) && db'.runs[run] == db.runs[run]
    ensures OwnOk(db', run) && Knows(c, db', run, pc)
  {
    hide RowsOk, AtLoopHead, Rebuilds, HasInFlight, FailedAgain, OwnOk, Alike, OnlyInFlight;
    ViewSurvives(db, db', run);
    OwnOkSurvives(db, db', run);
    match pc
    case Looping(at) => HeadSurvives(c, db, db', run, at);
    case Preparing(at) => HeadSurvives(c, db, db', run, at);
    case Calling(at) => HeadSurvives(c, db, db', run, at);
    case Recording(at, _) => HeadSurvives(c, db, db', run, at);
    case Settling(at, _) => HeadSurvives(c, db, db', run, at);
    case Concluding(at, _) => HeadSurvives(c, db, db', run, at);
    case Failing(code) => FailedSurvives(c, db, db', run, code);
    case MarkingFailed(code) => FailedSurvives(c, db, db', run, code);
    case _ =>
  }

  lemma ViewSurvives(db: DB, db': DB, run: nat)
    requires Alike(db, db', run) && db'.runs[run] == db.runs[run]
    ensures run < |db.runs| && run < |db'.runs| && (NotOpen(db, run) <==> NotOpen(db', run))
    ensures HasInFlight(db, run) <==> HasInFlight(db', run)
    ensures forall k :: OnlyInFlight(db, run, k) ==> OnlyInFlight(db', run, k)
  {
    SameInFlight(db, db', run);
    hide UsageOf, HasInFlight;
    assert forall k: nat :: (run, k).0 == run;
  }

  lemma OwnOkSurvives(db: DB, db': DB, run: nat)
    requires OwnOk(db, run) && Alike(db, db', run) && db'.runs[run] == db.runs[run]
    ensures OwnOk(db', run)
  {
    SameInFlight(db, db', run);
    hide HasInFlight, UsageOf;
  }

  lemma FailedSurvives(c: Catalog, db: DB, db': DB, run: nat, code: string)
    requires RowsOk(db.books, db.now) && RowsOk(db'.books, db'.now)
    requires FailedAgain(c, db, run, code) && Alike(db, db', run) && db'.runs[run] == db.runs[run]
    ensures FailedAgain(c, db', run, code)
  {
    SameInFlight(db, db', run);
    hide RowsOk, HasInFlight, FailsAgain;
    if !HasInFlight(db, run) {
      var at :| FailsAgain(c, db, run, at, code);
      FailureSurvives(c, db, db', run, at, code);
    }
  }
}
