/** Safety of every run of the concurrent system, crashes included, and what it means. */
module Reachability {
  import opened Rows
  import opened Tables
  import opened Pricing
  import opened Billing
  import opened Marketplace
  import opened Admission
  import opened RunBlocks
  import opened BooksInvariant
  import opened Transactions
  import opened Consistency
  import opened Machine
  import opened Protocol
  import opened ProtocolSteps

  // ----- client transactions -----

  lemma RequestIsListed(c: Catalog, txn: Txn, now: nat)
    requires ValidCatalog(c) && RequestOf(c, txn).Committed?
    ensures Listed(c, NewRun(RequestOf(c, txn).value, now))
  {
    if txn.AdmitAgent? {
      assert c.agents[txn.agent] != [];
    }
  }

  lemma AdmissionStep(c: Catalog, db: DB, q: Request)
    requires RunsOk(c, db) && CreateRun(db, q).Committed? && Listed(c, NewRun(q, db.now))
    ensures RunsOk(c, CreateRun(db, q).value.0)
  {
    var db' := CreateRun(db, q).value.0;
    if !CreateRun(db, q).value.1.replayed {
      assert Evolves(db, db', None);
      CheckpointsSurvive(c, db, db', None);
      forall run | 0 <= run < |db'.runs| ensures RunOk(c, db', run) {
        if run < |db.runs| {
          assert RunOk(c, db, run);
          SummedSurvives(c, db, db', None, run);
        }
      }
    }
  }

  lemma UntouchedRuns(c: Catalog, db: DB, db': DB)
    requires RunsOk(c, db)
    requires db'.runs == db.runs && db'.outbox == db.outbox && db'.executions == db.executions
    requires db'.books.reservations == db.books.reservations
    ensures RunsOk(c, db')
  {
    assert Evolves(db, db', None);
    CheckpointsSurvive(c, db, db', None);
    forall run | 0 <= run < |db'.runs| ensures RunOk(c, db', run) {
      assert RunOk(c, db, run);
      SummedSurvives(c, db, db', None, run);
    }
  }

  lemma ClientStep(c: Catalog, db: DB, txn: Txn)
    requires ValidCatalog(c) && RunsOk(c, db) && IsClient(txn)
    ensures RunsOk(c, Apply(c, db, txn)) && Evolves(db, Apply(c, db, txn), None)
  {
    hide RunsOk, Evolves, ValidCatalog, Listed;
    ClientsEvolve(c, db, txn);
    if txn.AdmitAgent? || txn.AdmitSkill? {
      var q := RequestOf(c, txn);
      if q.Committed? && CreateRun(db, q.value).Committed? {
        RequestIsListed(c, txn, db.now);
        AdmissionStep(c, db, q.value);
      }
    } else {
      OtherClientsLeaveRuns(c, db, txn);
      UntouchedRuns(c, db, Apply(c, db, txn));
    }
  }

  // ----- workers -----

  lemma AccountOk(c: Catalog, db: DB, run: nat, at: Local, skill: string, answer: Answer, charge: int)
    requires LocalOk(c, db, run, at) && SkillAt(c, db.runs[run], at.k).Some?
    requires StepDone(db, run, at.k + 1) && db.executions[(run, at.k + 1)].charged == charge && charge >= 0
    ensures WorkerOk(c, db, run, Account(db.runs[run], at, skill, answer, charge))
  {
    assert ChargeSum(db, run, at.k + 1) == ChargeSum(db, run, at.k) + charge;
    assert forall j :: 1 <= j <= at.k ==> StepDone(db, run, j);
  }

  /** A worker's total passes settle_run's own check, so the settlement fails only if the
      reservation has already been closed. */
  lemma SettleFailsOnlyIfClosed(c: Catalog, db: DB, run: nat, at: Local)
    requires RunsOk(c, db) && RowsOk(db.books, db.now) && LocalOk(c, db, run, at)
    ensures SettleRun(db.books, run, at.total, db.now).RolledBack? <==> db.books.reservations[run].status != Open
    ensures SettleRun(db.books, run, at.total, db.now).RolledBack? ==>
              SettleRun(db.books, run, at.total, db.now).error == ReservationNotOpen
  {
    SettleCloses(db.books, run, at.total, db.now);
  }

  ghost predicate Good(c: Catalog, db: DB, run: nat, next: (DB, Pc), claim: Option<(nat, nat)>) {
    RunsOk(c, next.0) && WorkerOk(c, next.0, run, next.1) && Evolves(db, next.0, claim)
  }

  lemma LoopHeadStep(c: Catalog, db: DB, run: nat, at: Local)
    requires LocalOk(c, db, run, at)
    ensures WorkerOk(c, db, run, AtLoopHead(c, db.runs[run], at))
  {
  }

  lemma ReadingStep(c: Catalog, db: DB, run: nat, pc: Pc, choice: Choice)
    requires RunsOk(c, db) && WorkerOk(c, db, run, pc) && !choice.Raise?
    requires pc.Looping? || pc.Calling? || pc.Logging? || pc.Hanging? || pc.Finished?
    ensures Good(c, db, run, StepWorker(c, db, run, pc, choice), None)
  {
    hide RunsOk, RowsOk, Evolves, AtLoopHead, SettleRun, RefundRun, Begin;
    IdleEvolves(db);
    if pc.Looping? {
      LoopHeadStep(c, db, run, pc.at);
    }
  }

  lemma ChoiceIgnored(c: Catalog, db: DB, run: nat, pc: Pc, choice: Choice)
    requires !choice.Raise? && !pc.Calling? && !pc.Preparing?
    ensures StepWorker(c, db, run, pc, choice) == StepWorker(c, db, run, pc, Proceed)
  {
  }

  lemma CheckpointChargeOk(c: Catalog, db: DB, key: (nat, nat))
    requires RunsOk(c, db) && key in db.executions && db.executions[key].Completed?
    ensures db.executions[key].charged >= 0
  {
    assert CheckpointOk(c, db, key);
  }

  lemma PreparingStep(c: Catalog, db: DB, run: nat, at: Local, choice: Choice)
    requires RunsOk(c, db) && RowsOk(db.books, db.now) && LocalOk(c, db, run, at)
    requires SkillAt(c, db.runs[run], at.k).Some? && !choice.Raise?
    ensures Good(c, db, run, StepWorker(c, db, run, Preparing(at), choice), None)
  {
    hide RunsOk, RowsOk, Evolves, Begin, SettleRun, RefundRun, SkillAt, Account, ChargeFor;
    var skill := SkillAt(c, db.runs[run], at.k).value;
    PrepareEvolves(db, run, at.k + 1, skill);
    PrepareStepKeeps(c, db, run, at, skill);
    if (run, at.k + 1) in db.executions {
      var e := db.executions[(run, at.k + 1)];
      if e.Completed? {
        CheckpointChargeOk(c, db, (run, at.k + 1));
        AccountOk(c, db, run, at, skill, e.answer, e.charged);
      }
    } else {
      InsertIsFresh(c, db, run, at.k, skill);
    }
  }

  lemma RecordingStep(c: Catalog, db: DB, run: nat, at: Local, answer: Answer)
    requires ValidCatalog(c) && RunsOk(c, db) && Owns(c, db, run, at)
    ensures Good(c, db, run, StepWorker(c, db, run, Recording(at, answer), Proceed), Some((run, at.k + 1)))
  {
    hide RunsOk, RowsOk, Evolves;
    var skill := SkillAt(c, db.runs[run], at.k).value;
    var charge := ChargeFor(c, db.runs[run], at.k, answer);
    var db' := Checkpoint(db, run, at.k + 1, answer, charge);
    ChargeIsNonNegative(c, db.runs[run], at.k, answer);
    RecordEvolves(db, run, at.k + 1, answer, charge);
    RecordStepKeeps(c, db, run, at, answer, charge);
    AccountOk(c, db', run, at, skill, answer, charge);
  }

  lemma SettlingStep(c: Catalog, db: DB, run: nat, at: Local, verdict: Verdict)
    requires RunsOk(c, db) && RowsOk(db.books, db.now) && WorkerOk(c, db, run, Settling(at, verdict))
    ensures Good(c, db, run, StepWorker(c, db, run, Settling(at, verdict), Proceed), None)
  {
    hide RunsOk, RowsOk, Evolves;
    SettleStep(c, db, run, at.total);
    SettleEvolves(db, run, at.total);
    LocalSurvives(c, db, Apply(c, db, SettleTxn(run, at.total)), None, run, at);
  }

  lemma ClosingStep(c: Catalog, db: DB, run: nat, pc: Pc)
    requires RunsOk(c, db) && RowsOk(db.books, db.now) && WorkerOk(c, db, run, pc)
    requires pc.Concluding? || pc.MarkingFailed? || pc.MarkingBlocked?
    ensures Good(c, db, run, StepWorker(c, db, run, pc, Proceed), None)
  {
    hide RunsOk, RowsOk, Evolves;
    var w := match pc
             case Concluding(at, verdict) => ClosingOf(at, verdict)
             case MarkingFailed(code) => Failed(code)
             case _ => BlockedAmbiguous;
    CloseEvolves(db, run, w);
    CloseStep(c, db, run, w);
  }

  lemma FailingStep(c: Catalog, db: DB, run: nat, code: string)
    requires RunsOk(c, db) && RowsOk(db.books, db.now) && Started(db, run)
    ensures Good(c, db, run, StepWorker(c, db, run, Failing(code), Proceed), None)
  {
    hide RunsOk, RowsOk, Evolves;
    RefundStep(c, db, run);
    RefundEvolves(db, run);
  }

  lemma NothingDoneOk(c: Catalog, db: DB, run: nat)
    requires RunsOk(c, db) && RowsOk(db.books, db.now) && Started(db, run)
    ensures LocalOk(c, db, run, NOTHING_DONE)
  {
    assert RunOk(c, db, run);
    assert ReservationOk(db.books.reservations[run], run, |db.books.wallets|, db.now);
  }

  lemma RunningIsStarted(c: Catalog, db: DB, run: nat)
    requires RunsOk(c, db) && run < |db.runs| && db.runs[run].status == Running
    ensures Started(db, run)
  {
    assert RunOk(c, db, run);
  }

  lemma StartingStep(c: Catalog, db: DB, run: nat)
    requires RunsOk(c, db) && RowsOk(db.books, db.now)
    ensures Good(c, db, run, StepWorker(c, db, run, Starting, Proceed), None)
  {
    hide RunsOk, RowsOk, Evolves;
    BeginEvolves(db, run);
    IdleEvolves(db);
    if run < |db.runs| {
      if Begin(db, run).Committed? {
        BeginStep(c, db, run);
      } else {
        RunningIsStarted(c, db, run);
      }
      if Begin(db, run).Committed? && Begin(db, run).value.1 {
        assert Begin(db, run).value.0.books == db.books && Begin(db, run).value.0.now == db.now;
        NothingDoneOk(c, Begin(db, run).value.0, run);
      }
    }
  }

  function ClaimNow(a: Actor, choice: Choice): Option<(nat, nat)> {
    if a.Worker? && a.pc.Recording? && !choice.Raise? then Claim(a) else None
  }

  /** A worker keeps the invariant, learns only what is true, and completes only its own checkpoint. */
  lemma WorkerStep(c: Catalog, db: DB, run: nat, pc: Pc, choice: Choice)
    requires ValidCatalog(c) && RunsOk(c, db) && RowsOk(db.books, db.now) && WorkerOk(c, db, run, pc)
    ensures Good(c, db, run, StepWorker(c, db, run, pc, choice), ClaimNow(Worker(run, pc), choice))
  {
    hide RunsOk, RowsOk, Evolves, NextPc, WorkerTxn, Apply;
    IdleEvolves(db);
    if !choice.Raise? {
      if !pc.Calling? && !pc.Preparing? {
        ChoiceIgnored(c, db, run, pc, choice);
      }
      match pc
      case Starting => StartingStep(c, db, run);
      case Preparing(at) => PreparingStep(c, db, run, at, choice);
      case Recording(at, answer) => RecordingStep(c, db, run, at, answer);
      case Settling(at, verdict) => SettlingStep(c, db, run, at, verdict);
      case Concluding(_, _) => ClosingStep(c, db, run, pc);
      case Failing(code) => FailingStep(c, db, run, code);
      case MarkingFailed(_) => ClosingStep(c, db, run, pc);
      case MarkingBlocked => ClosingStep(c, db, run, pc);
      case _ => ReadingStep(c, db, run, pc, choice);
    }
  }

  // ----- the other actors -----

  ghost predicate ActorGood(c: Catalog, db: DB, next: (DB, Actor), claim: Option<(nat, nat)>) {
    RunsOk(c, next.0) && ActorOk(c, next.0, next.1) && Evolves(db, next.0, claim)
  }

  lemma DispatcherStep(c: Catalog, db: DB, run: nat, pc: DispatchPc, choice: Choice)
    requires RunsOk(c, db) && RowsOk(db.books, db.now)
    ensures ActorGood(c, db, StepActor(c, db, Dispatcher(run, pc), choice), None)
  {
    hide RunsOk, RowsOk, Evolves;
    IdleEvolves(db);
    if pc.MarkingDispatched? {
      DispatchEvolves(db, run);
      DispatchStep(c, db, run);
    } else if pc.NotingFailure? {
      DispatchEvolves(db, run);
      DispatchFailureStep(c, db, run);
    }
  }

  lemma NothingSettledUnlessSettled(db: DB)
    requires RowsOk(db.books, db.now)
    ensures forall r :: 0 <= r < |db.books.reservations| && db.books.reservations[r].status != Settled ==>
                          db.books.reservations[r].settled == 0
  {
    forall r | 0 <= r < |db.books.reservations| && db.books.reservations[r].status != Settled
      ensures db.books.reservations[r].settled == 0
    {
      assert ReservationOk(db.books.reservations[r], r, |db.books.wallets|, db.now);
    }
  }

  lemma CancellerStep(c: Catalog, db: DB, run: nat, tenant: nat, pc: CancelPc, choice: Choice)
    requires RunsOk(c, db) && RowsOk(db.books, db.now)
    ensures ActorGood(c, db, StepActor(c, db, Canceller(run, tenant, pc), choice), None)
  {
    hide RunsOk, RowsOk, Evolves;
    IdleEvolves(db);
    if pc.Requesting? {
      CancelEvolves(db, run, tenant);
      if RequestCancel(db, run, tenant).Committed? {
        NothingSettledUnlessSettled(db);
        CancelStep(c, db, run, tenant);
      }
    } else if pc.RefundingCancelled? {
      RefundStep(c, db, run);
      RefundEvolves(db, run);
    }
  }

  lemma RefundingHeadStep(c: Catalog, db: DB, queue: seq<nat>, choice: Choice)
    requires RunsOk(c, db) && RowsOk(db.books, db.now) && ActorOk(c, db, Reaper(queue, RefundingHead))
    ensures ActorGood(c, db, StepActor(c, db, Reaper(queue, RefundingHead), choice), None)
  {
    hide RunsOk, RowsOk, Evolves;
    IdleEvolves(db);
    if queue != [] {
      RefundStep(c, db, queue[0]);
      RefundEvolves(db, queue[0]);
    }
  }

  lemma ExpiringHeadStep(c: Catalog, db: DB, queue: seq<nat>, choice: Choice)
    requires RunsOk(c, db) && ActorOk(c, db, Reaper(queue, ExpiringHead))
    ensures ActorGood(c, db, StepActor(c, db, Reaper(queue, ExpiringHead), choice), None)
  {
    hide RunsOk, Evolves;
    ExpireEvolves(db, queue[0]);
    ExpireStep(c, db, queue[0]);
    assert forall run :: run in queue[1..] ==> run in queue;
  }

  lemma ReaperStep(c: Catalog, db: DB, queue: seq<nat>, pc: ReapPc, choice: Choice)
    requires RunsOk(c, db) && RowsOk(db.books, db.now) && ActorOk(c, db, Reaper(queue, pc))
    ensures ActorGood(c, db, StepActor(c, db, Reaper(queue, pc), choice), None)
  {
    hide RunsOk, RowsOk, Evolves;
    IdleEvolves(db);
    match pc
    case RefundingHead => RefundingHeadStep(c, db, queue, choice);
    case ExpiringHead => ExpiringHeadStep(c, db, queue, choice);
    case _ => assert choice.Pick? ==> forall run :: run in choice.queue && Reapable(db, run) ==> run < |db.runs|;
  }

  lemma BlockedIsStarted(c: Catalog, db: DB, run: nat)
    requires RunsOk(c, db)
    ensures Reconcilable(db, run) ==> Started(db, run) && Ended(db.runs[run].status)
  {
    assert run < |db.runs| ==> RunOk(c, db, run);
  }

  lemma OperatorClosesStep(c: Catalog, db: DB, run: nat, action: Action, choice: Choice)
    requires RunsOk(c, db) && RowsOk(db.books, db.now) && Started(db, run) && Ended(db.runs[run].status)
    ensures ActorGood(c, db, StepActor(c, db, Operator(run, action, ClosingReservation), choice), None)
  {
    hide RunsOk, RowsOk, Evolves;
    IdleEvolves(db);
    if action.RefundIt? {
      RefundStep(c, db, run);
      RefundEvolves(db, run);
    } else if action.charge.Some? {
      SettleStep(c, db, run, action.charge.value);
      SettleEvolves(db, run, action.charge.value);
    }
  }

  lemma OperatorWritesStep(c: Catalog, db: DB, run: nat, action: Action, choice: Choice)
    requires RunsOk(c, db) && OperatorOk(db, run, action, Writing)
    ensures ActorGood(c, db, StepActor(c, db, Operator(run, action, Writing), choice), None)
  {
    hide RunsOk, Evolves;
    var w := if action.SettleIt? && action.charge.Some? then OperatorSettled(action.charge.value) else OperatorRefunded;
    CloseEvolves(db, run, w);
    CloseStep(c, db, run, w);
  }

  lemma OperatorStep(c: Catalog, db: DB, run: nat, action: Action, pc: OperatorPc, choice: Choice)
    requires RunsOk(c, db) && RowsOk(db.books, db.now) && OperatorOk(db, run, action, pc)
    ensures ActorGood(c, db, StepActor(c, db, Operator(run, action, pc), choice), None)
  {
    hide RunsOk, RowsOk, Evolves, Reconcilable;
    match pc
    case ClosingReservation => OperatorClosesStep(c, db, run, action, choice);
    case Writing => OperatorWritesStep(c, db, run, action, choice);
    case _ => IdleEvolves(db); BlockedIsStarted(c, db, run);
  }

  // ----- the system -----

  lemma ActorStep(c: Catalog, db: DB, a: Actor, choice: Choice)
    requires ValidCatalog(c) && RunsOk(c, db) && RowsOk(db.books, db.now) && ActorOk(c, db, a)
    ensures ActorGood(c, db, StepActor(c, db, a, choice), ClaimNow(a, choice))
  {
    hide RunsOk, RowsOk, Evolves, ValidCatalog;
    match a
    case Worker(run, pc) => WorkerStep(c, db, run, pc, choice);
    case Dispatcher(run, pc) => DispatcherStep(c, db, run, pc, choice);
    case Canceller(run, t, pc) => CancellerStep(c, db, run, t, pc, choice);
    case Reaper(queue, pc) => ReaperStep(c, db, queue, pc, choice);
    case Operator(run, action, pc) => OperatorStep(c, db, run, action, pc, choice);
  }

  /** An actor's step commits one transaction: results about all histories hold of the system. */
  lemma StepIsTransaction(c: Catalog, db: DB, a: Actor, choice: Choice)
    ensures StepActor(c, db, a, choice).0 == Apply(c, db, ActorTxn(c, db, a, choice))
  {
    hide Apply, WorkerTxn, NextPc, SettleRun, RefundRun, RequestCancel;
    ReadOnlyChangesNothing(c, db);
    if a.Reaper? && a.queue != [] {
      RolledBackChangesNothing(c, db, a.queue[0]);
    }
  }

  lemma ReadOnlyChangesNothing(c: Catalog, db: DB)
    ensures Apply(c, db, ReadOnly) == db
  {
  }

  lemma RolledBackChangesNothing(c: Catalog, db: DB, run: nat)
    ensures RefundRun(db.books, run, db.now).RolledBack? ==> Apply(c, db, RefundTxn(run)) == db
  {
    hide RefundRun;
  }

  /** A worker comes to hold a checkpoint only by inserting it, and stops waiting once answered. */
  lemma WorkerClaims(c: Catalog, db: DB, run: nat, pc: Pc, choice: Choice)
    ensures var next := NextPc(c, db, run, pc, choice);
            && (next.Calling? ==>
                  (pc.Preparing? && (run, next.at.k + 1) !in db.executions) || (next == pc && !choice.Reply?))
            && (next.Recording? ==> pc.Calling? && pc.at == next.at && choice.Reply?)
  {
  }

  lemma ClaimsAreNew(c: Catalog, db: DB, a: Actor, choice: Choice)
    ensures var next := StepActor(c, db, a, choice).1;
            && (Claim(next).Some? ==> Claim(next) == Claim(a) || Claim(next).value !in db.executions)
            && (next.Worker? && next.pc.Calling? ==> Claim(next).value !in db.executions || next == a)
            && (next.Worker? && next.pc.Calling? && next == a ==> CallMade(a, choice) == multiset{})
  {
    hide Apply, NextPc;
    if a.Worker? {
      WorkerClaims(c, db, a.run, a.pc, choice);
    }
  }

  lemma OwnersHoldRows(c: Catalog, s: Sys, i: nat)
    requires ActorsOk(c, s) && i < |s.actors| && Claim(s.actors[i]).Some?
    ensures Claim(s.actors[i]).value in s.db.executions
  {
    assert ActorOk(c, s.db, s.actors[i]);
  }

  lemma ActKeepsActors(c: Catalog, s: Sys, i: nat, choice: Choice)
    requires ActorsOk(c, s) && ClaimsDiffer(s) && i < |s.actors| && Aligned(s.db)
    requires var next := StepActor(c, s.db, s.actors[i], choice);
             Aligned(next.0) && ActorOk(c, next.0, next.1) && Evolves(s.db, next.0, ClaimNow(s.actors[i], choice))
    ensures ActorsOk(c, Acted(c, s, i, choice))
  {
    hide Evolves, ActorOk, StepActor, Aligned;
    var s' := Acted(c, s, i, choice);
    forall j | 0 <= j < |s'.actors| ensures ActorOk(c, s'.db, s'.actors[j]) {
      if j != i {
        assert ActorOk(c, s.db, s.actors[j]);
        KnowledgeSurvives(c, s.db, s'.db, ClaimNow(s.actors[i], choice), s.actors[j]);
      }
    }
  }

  lemma CheckpointsStay(db: DB, db': DB, claim: Option<(nat, nat)>)
    requires Evolves(db, db', claim)
    ensures forall key :: key in db.executions ==> key in db'.executions
  {
  }

  lemma ActKeepsCalls(c: Catalog, s: Sys, i: nat, choice: Choice)
    requires ActorsOk(c, s) && ClaimsDiffer(s) && CallsOk(s) && i < |s.actors|
    requires Evolves(s.db, StepActor(c, s.db, s.actors[i], choice).0, ClaimNow(s.actors[i], choice))
    ensures ClaimsDiffer(Acted(c, s, i, choice)) && CallsOk(Acted(c, s, i, choice))
  {
    hide ActorOk, StepActor, Evolves;
    var s' := Acted(c, s, i, choice);
    CheckpointsStay(s.db, s'.db, ClaimNow(s.actors[i], choice));
    ClaimsAreNew(c, s.db, s.actors[i], choice);
    forall j | 0 <= j < |s.actors| && Claim(s.actors[j]).Some? ensures Claim(s.actors[j]).value in s.db.executions {
      OwnersHoldRows(c, s, j);
    }
    assert ClaimsDiffer(s');
    forall key ensures s'.calls[key] <= 1 {
      assert s.calls[key] <= 1;
    }
    assert forall key :: key in s'.calls ==> key in s'.db.executions;
    forall j | 0 <= j < |s'.actors| && s'.actors[j].Worker? && s'.actors[j].pc.Calling?
      ensures (s'.actors[j].run, s'.actors[j].pc.at.k + 1) !in s'.calls
    {
      assert Claim(s'.actors[j]).Some?;
      if j != i {
        assert s'.actors[j] == s.actors[j];
        assert Claim(s.actors[i]) != Claim(s.actors[j]);
      }
    }
  }

  lemma ActKeeps(c: Catalog, s: Sys, i: nat, choice: Choice)
    requires ValidCatalog(c) && SysOk(c, s) && i < |s.actors|
    ensures SysOk(c, Acted(c, s, i, choice))
  {
    hide StepActor, ValidCatalog, ClaimsDiffer, CallsOk, BooksOk, Evolves, ActorOk;
    var a := s.actors[i];
    assert ActorOk(c, s.db, a);
    RowsOfConsistent(s.db);
    ActorStep(c, s.db, a, choice);
    StepIsTransaction(c, s.db, a, choice);
    ApplyKeeps(c, s.db, ActorTxn(c, s.db, a, choice));
    ActKeepsActors(c, s, i, choice);
    ActKeepsCalls(c, s, i, choice);
  }

  lemma AlignedOf(c: Catalog, db: DB)
    requires RunsOk(c, db)
    ensures Aligned(db)
  {
  }

  lemma ClientKeeps(c: Catalog, s: Sys, txn: Txn)
    requires ValidCatalog(c) && SysOk(c, s) && IsClient(txn)
    ensures SysOk(c, Do(c, s, Client(txn)))
  {
    hide Apply, ValidCatalog, BooksOk, ActorOk, RunsOk, Aligned, KeysOk, MarketOk, ControlsOk;
    var s' := Do(c, s, Client(txn));
    ApplyKeeps(c, s.db, txn);
    ClientStep(c, s.db, txn);
    AlignedOf(c, s.db);
    AlignedOf(c, s'.db);
    forall j | 0 <= j < |s'.actors| ensures ActorOk(c, s'.db, s'.actors[j]) {
      assert ActorOk(c, s.db, s.actors[j]);
      KnowledgeSurvives(c, s.db, s'.db, None, s.actors[j]);
    }
  }

  lemma SpawnKeeps(c: Catalog, s: Sys, a: Actor)
    requires SysOk(c, s) && IsFresh(a)
    ensures SysOk(c, Do(c, s, Spawn(a)))
  {
    hide Consistent, RunsOk;
  }

  lemma CrashKeeps(c: Catalog, s: Sys, i: nat)
    requires SysOk(c, s) && i < |s.actors|
    ensures SysOk(c, Do(c, s, Crash(i)))
  {
    hide Consistent, RunsOk, CallsOk, ClaimsDiffer;
    CrashKeepsCalls(c, s, i);
  }

  /** A crash makes no call twice: it cuts short the one the process was waiting for. */
  lemma CrashKeepsCalls(c: Catalog, s: Sys, i: nat)
    requires ActorsOk(c, s) && ClaimsDiffer(s) && CallsOk(s) && i < |s.actors|
    ensures ClaimsDiffer(Do(c, s, Crash(i))) && CallsOk(Do(c, s, Crash(i)))
  {
    hide ActorOk;
    var s' := Do(c, s, Crash(i));
    if Claim(s.actors[i]).Some? {
      OwnersHoldRows(c, s, i);
    }
    forall j | 0 <= j < |s'.actors| && Claim(s'.actors[j]).Some? ensures j != i && s'.actors[j] == s.actors[j] {
    }
  }

  /** Every event keeps the system's invariant: a step, a client transaction, a new process, a crash. */
  lemma EventKeeps(c: Catalog, s: Sys, e: Event)
    requires ValidCatalog(c) && SysOk(c, s)
    ensures SysOk(c, Do(c, s, e))
  {
    hide SysOk;
    match e
    case Client(txn) => if IsClient(txn) { ClientKeeps(c, s, txn); }
    case Spawn(a) => if IsFresh(a) && (a.Worker? ==> a.run in s.jobs) { SpawnKeeps(c, s, a); }
    case Act(i, choice) =>
      if i < |s.actors| && !Waits(c, s, s.actors[i], choice) {
        ActKeeps(c, s, i, choice);
      }
    case Crash(i) => if i < |s.actors| { CrashKeeps(c, s, i); }
  }

  /** Safety: the invariant holds after any sequence of events from an empty database. */
  lemma {:induction false} AlwaysSafe(c: Catalog, now: nat, monthStart: nat, events: seq<Event>)
    requires ValidCatalog(c) && monthStart <= now
    ensures SysOk(c, After(c, Boot(now, monthStart), events))
    decreases |events|
  {
    if |events| == 0 {
      EmptyIsConsistent(now, monthStart);
    } else {
      AlwaysSafe(c, now, monthStart, events[..|events| - 1]);
      EventKeeps(c, After(c, Boot(now, monthStart), events[..|events| - 1]), events[|events| - 1]);
    }
  }

  // ----- what it means -----

  /** What a run's status says about its money in every reachable state. What its worker charged it on
      passing, running out of budget or honouring a cancellation is the sum of its checkpoints. */
  lemma StatusAgreesWithMoney(c: Catalog, now: nat, monthStart: nat, events: seq<Event>, db: DB, run: nat)
    requires ValidCatalog(c) && monthStart <= now
    requires db == After(c, Boot(now, monthStart), events).db && run < |db.runs|
    ensures run < |db.books.reservations|
    ensures db.runs[run].status in {Pass, Partial} ==>
              db.books.reservations[run].status == Settled && db.books.reservations[run].settled == db.runs[run].charged
    ensures db.runs[run].status == Fail ==> db.books.reservations[run].status != Open
    ensures db.runs[run].status == Cancelled ==> db.runs[run].charged == db.books.reservations[run].settled
    ensures db.runs[run].status == Pass ==> PassedInFull(c, db, run)
    ensures Stopped(db.runs[run]) ==> exists k: nat :: PaidFor(db, run, k)
  {
    AlwaysSafe(c, now, monthStart, events);
    assert RunOk(c, db, run);
  }

  /** Every run has one reservation and one event, and dispatch precedes execution. */
  lemma DispatchPrecedesExecution(c: Catalog, now: nat, monthStart: nat, events: seq<Event>, db: DB, run: nat)
    requires ValidCatalog(c) && monthStart <= now
    requires db == After(c, Boot(now, monthStart), events).db && run < |db.runs|
    ensures |db.runs| == |db.books.reservations| == |db.outbox|
    ensures db.books.reservations[run].run == run && db.outbox[run].run == run
    ensures !db.outbox[run].dispatched ==> db.runs[run].status in {PendingDispatch, Cancelled, Fail}
    ensures db.runs[run].status in {Queued, Running} ==> db.outbox[run].dispatched
    ensures (exists k :: (run, k) in db.executions) ==> db.outbox[run].dispatched
  {
    AlwaysSafe(c, now, monthStart, events);
    assert RunOk(c, db, run);
    assert ReservationOk(db.books.reservations[run], run, |db.books.wallets|, db.now);
    forall k | (run, k) in db.executions ensures db.outbox[run].dispatched {
      assert CheckpointOk(c, db, (run, k));
    }
  }

  /** Once dispatched an event stays dispatched, whatever happens next. */
  lemma {:induction false} DispatchedForGood(c: Catalog, s: Sys, events: seq<Event>, run: nat)
    requires run < |s.db.outbox| && s.db.outbox[run].dispatched
    ensures var s' := After(c, s, events); run < |s'.db.outbox| && s'.db.outbox[run].dispatched
    decreases |events|
  {
    if |events| > 0 {
      var front := events[..|events| - 1];
      var before := After(c, s, front);
      var last := events[|events| - 1];
      DispatchedForGood(c, s, front, run);
      if last.Client? {
        DispatchedStays(c, before.db, last.txn, run);
      } else if last.Act? && last.i < |before.actors| {
        StepIsTransaction(c, before.db, before.actors[last.i], last.choice);
        DispatchedStays(c, before.db, ActorTxn(c, before.db, before.actors[last.i], last.choice), run);
      }
    }
  }

  lemma DispatchedStays(c: Catalog, db: DB, txn: Txn, run: nat)
    requires run < |db.outbox| && db.outbox[run].dispatched
    ensures run < |Apply(c, db, txn).outbox| && Apply(c, db, txn).outbox[run].dispatched
  {
    hide ProcessPayment, UpsertPublisher, PublishSkill, CreateListing, PurchaseListing, AdmissionError, Hold;
    hide SettleRun, RefundRun, RequestOf, HasInFlight;
    if IsClient(txn) && !txn.AdmitAgent? && !txn.AdmitSkill? {
      OtherClientsLeaveRuns(c, db, txn);
    }
  }

  lemma EventKeepsEnded(c: Catalog, s: Sys, e: Event, run: nat)
    requires ValidCatalog(c) && SysOk(c, s) && run < |s.db.runs| && Ended(s.db.runs[run].status)
    ensures var s' := Do(c, s, e); run < |s'.db.runs| && Ended(s'.db.runs[run].status)
  {
    match e
    case Client(txn) =>
      if IsClient(txn) {
        hide Apply, ValidCatalog;
        ClientsEvolve(c, s.db, txn);
      }
    case Act(i, choice) =>
      if i < |s.actors| {
        assert ActorOk(c, s.db, s.actors[i]) && RowsOk(s.db.books, s.db.now) && RunsOk(c, s.db);
        hide SysOk, RunsOk, RowsOk, ActorOk, StepActor, ValidCatalog;
        ActorStep(c, s.db, s.actors[i], choice);
      }
    case _ =>
  }

  /** A run that has ended, in whatever status, never waits, executes or is cancelled again. */
  lemma {:induction false} EndedForGood(c: Catalog, s: Sys, events: seq<Event>, run: nat)
    requires ValidCatalog(c) && SysOk(c, s) && run < |s.db.runs| && Ended(s.db.runs[run].status)
    ensures var s' := After(c, s, events); SysOk(c, s') && run < |s'.db.runs| && Ended(s'.db.runs[run].status)
    decreases |events|
  {
    hide SysOk, Do, ValidCatalog;
    if |events| > 0 {
      EndedForGood(c, s, events[..|events| - 1], run);
      EventKeeps(c, After(c, s, events[..|events| - 1]), events[|events| - 1]);
      EventKeepsEnded(c, After(c, s, events[..|events| - 1]), events[|events| - 1], run);
    }
  }

  /** Each PASS checkpoint is charged what its skill costs for the tokens it records, and so is the run. */
  lemma CheckpointsAreMetered(c: Catalog, now: nat, monthStart: nat, events: seq<Event>, db: DB, key: (nat, nat))
    requires ValidCatalog(c) && monthStart <= now && db == After(c, Boot(now, monthStart), events).db
    requires key in db.executions && db.executions[key].Completed?
    ensures var e := db.executions[key];
            && e.skill in c.skills
            && e.charged == SkillCharge(c.skills[e.skill], e.answer.tokensIn, e.answer.tokensOut)
  {
    AlwaysSafe(c, now, monthStart, events);
    assert CheckpointOk(c, db, key);
  }

  /** What `calls` counts: a worker's wait for the provider is one call, however it ends, and nothing else is. */
  lemma CallsAreCounted(c: Catalog, s: Sys, e: Event)
    requires SysOk(c, s)
    ensures var s' := Do(c, s, e);
            s'.calls
            == if (e.Act? || e.Crash?) && e.i < |s.actors| && s.actors[e.i].Worker? && s.actors[e.i].pc.Calling?
                  && s'.actors[e.i] != s.actors[e.i]
               then s.calls + multiset{(s.actors[e.i].run, s.actors[e.i].pc.at.k + 1)}
               else s.calls
  {
    hide Apply, SysOk;
    if e.Act? && e.i < |s.actors| && s.actors[e.i].Worker? && s.actors[e.i].pc.Calling? {
      CallerHasRun(c, s, e.i);
      CallingEnds(c, s.db, s.actors[e.i].run, s.actors[e.i].pc.at, e.choice);
    }
    hide NextPc;
  }

  lemma CallerHasRun(c: Catalog, s: Sys, i: nat)
    requires SysOk(c, s) && i < |s.actors| && s.actors[i].Worker? && s.actors[i].pc.Calling?
    ensures s.actors[i].run < |s.db.runs|
  {
    assert ActorOk(c, s.db, s.actors[i]);
  }

  lemma CallingEnds(c: Catalog, db: DB, run: nat, at: Local, choice: Choice)
    requires run < |db.runs|
    ensures StepWorker(c, db, run, Calling(at), choice).1
         == if choice.Reply? then Recording(at, choice.answer)
            else if choice.Raise? then Failing(choice.code)
            else Calling(at)
  {
  }

  /** The provider is called at most once for each run and sequence number. */
  lemma ProviderCalledOnce(c: Catalog, now: nat, monthStart: nat, events: seq<Event>, run: nat, k: nat)
    requires ValidCatalog(c) && monthStart <= now
    ensures After(c, Boot(now, monthStart), events).calls[(run, k)] <= 1
  {
    AlwaysSafe(c, now, monthStart, events);
  }

  /** A run's checkpoints are a contiguous prefix of its workflow, all PASS but possibly the last. */
  lemma CheckpointsAreAPrefix(c: Catalog, now: nat, monthStart: nat, events: seq<Event>, db: DB, run: nat, k: nat)
    requires ValidCatalog(c) && monthStart <= now
    requires db == After(c, Boot(now, monthStart), events).db && (run, k) in db.executions
    ensures k >= 1 && run < |db.runs| && SkillAt(c, db.runs[run], k - 1) == Some(db.executions[(run, k)].skill)
    ensures StepsDone(db, run, k - 1)
    ensures forall j :: (run, j) in db.executions && db.executions[(run, j)].InFlight? ==> k <= j
  {
    AlwaysSafe(c, now, monthStart, events);
    PrefixDone(c, db, run, k);
    forall j | (run, j) in db.executions && db.executions[(run, j)].InFlight? ensures k <= j {
      PrefixDone(c, db, run, j);
      assert StepDone(db, run, j) || k <= j;
    }
  }

  lemma {:induction false} PrefixDone(c: Catalog, db: DB, run: nat, k: nat)
    requires RunsOk(c, db) && (run, k) in db.executions
    ensures k >= 1 && StepsDone(db, run, k - 1)
    ensures run < |db.runs| && SkillAt(c, db.runs[run], k - 1) == Some(db.executions[(run, k)].skill)
    decreases k
  {
    assert CheckpointOk(c, db, (run, k));
    if k > 1 {
      PrefixDone(c, db, run, k - 1);
    }
  }

  /** At every point of its loop a worker's total is the sum of its checkpoints and within the
      reservation, so its settlement can fail only because the reservation is no longer open. */
  lemma WorkersStayWithinBudget(c: Catalog, now: nat, monthStart: nat, events: seq<Event>, s: Sys, i: nat)
    requires ValidCatalog(c) && monthStart <= now && s == After(c, Boot(now, monthStart), events)
    requires i < |s.actors| && s.actors[i].Worker?
    requires var pc := s.actors[i].pc; pc.Looping? || pc.Preparing? || pc.Settling?
    ensures var run, at := s.actors[i].run, s.actors[i].pc.at;
            && run < |s.db.runs| && run < |s.db.books.reservations|
            && at.total == ChargeSum(s.db, run, at.k)
            && 0 <= at.total <= s.db.runs[run].maxSpend == s.db.books.reservations[run].amount
            && (SettleRun(s.db.books, run, at.total, s.db.now).RolledBack?
                <==> s.db.books.reservations[run].status != Open)
  {
    AlwaysSafe(c, now, monthStart, events);
    assert ActorOk(c, s.db, s.actors[i]);
    SettleFailsOnlyIfClosed(c, s.db, s.actors[i].run, s.actors[i].pc.at);
  }

  /** reconcile_wallet is ok for every tenant in every reachable state. */
  lemma AlwaysReconciles(c: Catalog, now: nat, monthStart: nat, events: seq<Event>, t: nat)
    requires ValidCatalog(c) && monthStart <= now
    requires t < |After(c, Boot(now, monthStart), events).db.books.wallets|
    ensures ReconcileWallet(After(c, Boot(now, monthStart), events).db.books, t).ok
    ensures ConstraintsHold(After(c, Boot(now, monthStart), events).db.books)
  {
    AlwaysSafe(c, now, monthStart, events);
    Reconciles(After(c, Boot(now, monthStart), events).db, t);
    ConstraintsAlwaysHold(After(c, Boot(now, monthStart), events).db);
  }
}
