/** One run's rows. Transactions of other runs, payments, purchases and the clock leave them alone,
    and a worker reads and writes no others, so its progress does not depend on what else happens. */
module Isolation {
  import opened Rows
  import opened Tables
  import opened Pricing
  import opened Billing
  import opened Marketplace
  import opened Admission
  import opened RunBlocks
  import opened BooksInvariant
  import opened Transactions
  import opened Consistency
  import opened Machine
  import opened Executor

  /** The run whose row, reservation, checkpoints or usage a transaction writes. */
  function Writes(txn: Txn): Option<nat> {
    match txn
    case BeginRun(r) => Some(r)
    case PrepareStep(r, _, _) => Some(r)
    case RecordStep(r, _, _, _) => Some(r)
    case SettleTxn(r, _) => Some(r)
    case RefundTxn(r) => Some(r)
    case CloseTxn(r, _) => Some(r)
    case CancelTxn(r, _) => Some(r)
    case ExpireTxn(r) => Some(r)
    case DispatchedTxn(r) => Some(r)
    case _ => None
  }

  function UsageOf(usage: seq<UsageEvent>, run: nat): seq<UsageEvent> {
    if |usage| == 0 then []
    else UsageOf(usage[..|usage| - 1], run) + if usage[|usage| - 1].run == run then [usage[|usage| - 1]] else []
  }

  lemma UsageAppend(usage: seq<UsageEvent>, e: UsageEvent, run: nat)
    ensures UsageOf(usage + [e], run) == UsageOf(usage, run) + if e.run == run then [e] else []
  {
    assert (usage + [e])[..|usage|] == usage;
  }

  predicate SameCheckpoints(db: DB, db': DB, run: nat) {
    && (forall key :: key in db.executions && key.0 == run ==>
                      key in db'.executions && db'.executions[key] == db.executions[key])
    && (forall key :: key in db'.executions && key.0 == run ==> key in db.executions)
  }

  /** Two databases hold the same row, reservation, checkpoints and usage for a run; only the
      instant at which it was started may differ. */
  ghost predicate Alike(db: DB, db': DB, run: nat) {
    && run < |db.runs| && run < |db'.runs|
    && db'.runs[run] == db.runs[run].(startedAt := db'.runs[run].startedAt)
    && run < |db.books.reservations| && run < |db'.books.reservations|
    && db'.books.reservations[run] == db.books.reservations[run]
    && SameCheckpoints(db, db', run)
    && UsageOf(db'.usage, run) == UsageOf(db.usage, run)
  }

  lemma AlikeBothWays(db: DB, mid: DB, db': DB, run: nat)
    requires Alike(db, mid, run)
    ensures Alike(mid, db, run)
    ensures Alike(mid, db', run) ==> Alike(db, db', run)
  {
  }

  /** Rows that agree keep agreeing in the ledger: each reservation's rows follow from it. */
  lemma SameLedgerRows(db: DB, db': DB, run: nat)
    requires Consistent(db) && Consistent(db') && Alike(db, db', run)
    ensures Posted(db'.books.ledger, Held(run)) == Posted(db.books.ledger, Held(run))
  {
    assert Posted(db.books.ledger, Held(run)) == Expected(db.books, Held(run));
    assert Posted(db'.books.ledger, Held(run)) == Expected(db'.books, Held(run));
  }

  // ----- everyone else -----

  lemma OtherWalletBlocksLeaveRun(c: Catalog, db: DB, txn: Txn, run: nat)
    requires RowsOk(db.books, db.now) && run < |db.books.reservations|
    requires Writes(txn) != Some(run) && (txn.SettleTxn? || txn.RefundTxn?)
    ensures var db' := Apply(c, db, txn);
            && db' == db.(books := db'.books)
            && run < |db'.books.reservations| && db'.books.reservations[run] == db.books.reservations[run]
  {
    hide RowsOk, SettleRun, RefundRun, Post;
    if txn.SettleTxn? {
      SettleCloses(db.books, txn.run, txn.charge, db.now);
    } else {
      RefundCloses(db.books, txn.run, db.now);
    }
  }

  lemma OtherRunBlocksLeaveRun(c: Catalog, db: DB, txn: Txn, run: nat)
    requires run < |db.runs| && Writes(txn) != Some(run) && Writes(txn).Some? && !txn.SettleTxn? && !txn.RefundTxn?
    ensures var db' := Apply(c, db, txn);
            && db'.books == db.books && |db'.runs| == |db.runs| && db'.runs[run] == db.runs[run]
            && SameCheckpoints(db, db', run) && UsageOf(db'.usage, run) == UsageOf(db.usage, run)
  {
    hide HasInFlight, FindEvent, UsageOf, Close, Prepare, Checkpoint, SameCheckpoints;
    if txn.CloseTxn? {
      OtherCloseLeavesRun(db, txn.run, txn.closing, run);
    } else if txn.PrepareStep? {
      OtherCheckpointsLeaveRun(db, txn.run, txn.sequenceNo, txn.skillId, Answer("", "", 0, 0), 0, run);
    } else if txn.RecordStep? {
      OtherCheckpointsLeaveRun(db, txn.run, txn.sequenceNo, "", txn.answer, txn.charge, run);
    }
    AgreesWithItself(db, Apply(c, db, txn), run);
  }

  lemma AgreesWithItself(db: DB, db': DB, run: nat)
    ensures db'.executions == db.executions ==> SameCheckpoints(db, db', run)
  {
  }

  lemma OtherCheckpointsLeaveRun(db: DB, other: nat, k: nat, skill: string, answer: Answer, charge: int, run: nat)
    requires other != run
    ensures var db' := Prepare(db, other, k, skill, false).0;
            db' == db.(executions := db'.executions) && SameCheckpoints(db, db', run)
    ensures var db' := Checkpoint(db, other, k, answer, charge);
            db' == db.(executions := db'.executions) && SameCheckpoints(db, db', run)
  {
  }

  lemma OtherCloseLeavesRun(db: DB, other: nat, w: Closing, run: nat)
    requires run < |db.runs| && other != run
    ensures var db' := Close(db, other, w);
            && db'.books == db.books && |db'.runs| == |db.runs| && db'.runs[run] == db.runs[run]
            && db'.executions == db.executions && UsageOf(db'.usage, run) == UsageOf(db.usage, run)
  {
    hide Closed, UsageOf;
    if w.Passed? {
      UsageAppend(db.usage, UsageEvent(other, w.tokensIn, w.tokensOut), run);
    }
  }

  lemma AdmissionLeavesRun(db: DB, q: Request, run: nat)
    requires run < |db.runs| && run < |db.books.reservations| && CreateRun(db, q).Committed?
    ensures var db' := CreateRun(db, q).value.0;
            && run < |db'.runs| && db'.runs[run] == db.runs[run]
            && run < |db'.books.reservations| && db'.books.reservations[run] == db.books.reservations[run]
            && db'.executions == db.executions && db'.usage == db.usage
  {
    hide AdmissionError, Post;
  }

  predicate SameRuns(db: DB, db': DB) {
    && db'.runs == db.runs && db'.books.reservations == db.books.reservations
    && db'.executions == db.executions && db'.usage == db.usage
  }

  lemma MoneyLeavesRuns(c: Catalog, db: DB, txn: Txn)
    requires txn.Deliver? || txn.Buy?
    ensures SameRuns(db, Apply(c, db, txn))
  {
    hide Post, FindSale, FindPayment, PublisherShare;
  }

  lemma RestLeaveRuns(c: Catalog, db: DB, txn: Txn)
    requires Writes(txn).None? && !txn.AdmitAgent? && !txn.AdmitSkill?
    ensures SameRuns(db, Apply(c, db, txn))
  {
    hide ProcessPayment, PurchaseListing, FindPublisher, ValidControl, Stamped, Backoff, FindEvent;
    if txn.Deliver? || txn.Buy? {
      MoneyLeavesRuns(c, db, txn);
    }
  }

  /** A transaction of another run or of none, or a late mark of this run's own dispatch. */
  predicate LeavesAlone(db: DB, txn: Txn, run: nat) {
    || Writes(txn) != Some(run)
    || (txn == DispatchedTxn(run) && run < |db.runs| && db.runs[run].status != PendingDispatch)
  }

  lemma UntouchedIsAlike(db: DB, db': DB, run: nat)
    requires run < |db.runs| && run < |db.books.reservations| && run < |db'.runs| && run < |db'.books.reservations|
    requires db'.runs[run] == db.runs[run] && db'.books.reservations[run] == db.books.reservations[run]
    requires db'.executions == db.executions || SameCheckpoints(db, db', run)
    requires db'.usage == db.usage || UsageOf(db'.usage, run) == UsageOf(db.usage, run)
    ensures Alike(db, db', run)
  {
  }

  /** Such a transaction leaves the run's row outright, and the rest of it alike. */
  lemma OthersLeaveRun(c: Catalog, db: DB, txn: Txn, run: nat)
    requires Consistent(db) && run < |db.runs| && LeavesAlone(db, txn, run)
    ensures var db' := Apply(c, db, txn); Alike(db, db', run) && db'.runs[run] == db.runs[run]
  {
    assert RowsOk(db.books, db.now) && run < |db.books.reservations|;
    hide Consistent, RowsOk, Apply, CreateRun, UsageOf, Alike, SameCheckpoints;
    if txn == DispatchedTxn(run) && db.runs[run].status != PendingDispatch {
      LateDispatchLeavesRun(c, db, run);
    } else if txn.SettleTxn? || txn.RefundTxn? {
      OtherWalletBlocksLeaveRun(c, db, txn, run);
    } else if Writes(txn).Some? {
      OtherRunBlocksLeaveRun(c, db, txn, run);
    } else if txn.AdmitAgent? || txn.AdmitSkill? {
      AdmissionTxnLeavesRun(c, db, txn, run);
    } else {
      RestLeaveRuns(c, db, txn);
    }
    UntouchedIsAlike(db, Apply(c, db, txn), run);
  }

  lemma LateDispatchLeavesRun(c: Catalog, db: DB, run: nat)
    requires run < |db.runs| && db.runs[run].status != PendingDispatch
    ensures var db' := Apply(c, db, DispatchedTxn(run));
            db'.runs == db.runs && db'.books == db.books && db'.executions == db.executions && db'.usage == db.usage
  {
    hide FindEvent;
  }

  lemma AdmissionTxnLeavesRun(c: Catalog, db: DB, txn: Txn, run: nat)
    requires run < |db.runs| && run < |db.books.reservations| && (txn.AdmitAgent? || txn.AdmitSkill?)
    ensures var db' := Apply(c, db, txn);
            && run < |db'.runs| && db'.runs[run] == db.runs[run]
            && run < |db'.books.reservations| && db'.books.reservations[run] == db.books.reservations[run]
            && db'.executions == db.executions && db'.usage == db.usage
  {
    hide RequestOf, CreateRun;
    if RequestOf(c, txn).Committed? && CreateRun(db, RequestOf(c, txn).value).Committed? {
      AdmissionLeavesRun(db, RequestOf(c, txn).value, run);
    }
  }

  // ----- the worker itself -----

  ghost predicate StepsAlike(c: Catalog, db: DB, db': DB, run: nat, pc: Pc, choice: Choice) {
    var (next, next') := (StepWorker(c, db, run, pc, choice), StepWorker(c, db', run, pc, choice));
    next'.1 == next.1 && Alike(next.0, next'.0, run)
  }

  lemma SameInFlight(db: DB, db': DB, run: nat)
    requires SameCheckpoints(db, db', run)
    ensures HasInFlight(db, run) <==> HasInFlight(db', run)
  {
  }

  lemma BeginSame(db: DB, db': DB, run: nat)
    requires Alike(db, db', run)
    ensures Begin(db, run).RolledBack? <==> Begin(db', run).RolledBack?
    ensures Begin(db, run).RolledBack? ==> Begin(db', run) == Begin(db, run)
    ensures Begin(db, run).Committed? ==>
              && Begin(db', run).value.1 == Begin(db, run).value.1
              && Alike(Begin(db, run).value.0, Begin(db', run).value.0, run)
  {
    SameInFlight(db, db', run);
    hide HasInFlight, UsageOf;
  }

  lemma PrepareSame(db: DB, db': DB, run: nat, k: nat, skill: string)
    requires Alike(db, db', run)
    ensures Prepare(db', run, k, skill, false).1 == Prepare(db, run, k, skill, false).1
    ensures Alike(Prepare(db, run, k, skill, false).0, Prepare(db', run, k, skill, false).0, run)
  {
    hide UsageOf;
  }

  lemma CheckpointSame(db: DB, db': DB, run: nat, k: nat, answer: Answer, charge: int)
    requires Alike(db, db', run)
    ensures Alike(Checkpoint(db, run, k, answer, charge), Checkpoint(db', run, k, answer, charge), run)
  {
    hide UsageOf;
  }

  lemma CloseSame(db: DB, db': DB, run: nat, w: Closing)
    requires Alike(db, db', run)
    ensures Alike(Close(db, run, w), Close(db', run, w), run)
  {
    hide UsageOf;
    if w.Passed? {
      UsageAppend(db.usage, UsageEvent(run, w.tokensIn, w.tokensOut), run);
      UsageAppend(db'.usage, UsageEvent(run, w.tokensIn, w.tokensOut), run);
    }
  }

  lemma TermsAlike(c: Catalog, db: DB, db': DB, run: nat, at: Local)
    requires Alike(db, db', run)
    ensures run < |db.runs| && run < |db'.runs| && SkillAt(c, db'.runs[run], at.k) == SkillAt(c, db.runs[run], at.k)
    ensures forall skill, answer, charge ::
              Account(db'.runs[run], at, skill, answer, charge) == Account(db.runs[run], at, skill, answer, charge)
    ensures AtLoopHead(c, db'.runs[run], at) == AtLoopHead(c, db.runs[run], at)
    ensures forall answer :: ChargeFor(c, db'.runs[run], at.k, answer) == ChargeFor(c, db.runs[run], at.k, answer)
  {
    assert Workflow(c, db'.runs[run]) == Workflow(c, db.runs[run]);
  }

  lemma StartingSteps(c: Catalog, db: DB, run: nat)
    requires run < |db.runs|
    ensures var (next, begun) := (StepWorker(c, db, run, Starting, Proceed), Begin(db, run));
            && next.0 == (if begun.Committed? then begun.value.0 else db)
            && next.1 == (if begun.Committed? && begun.value.1 then Looping(NOTHING_DONE)
                          else if begun == RolledBack(WaitsForItself) then Hanging
                          else Finished)
  {
    hide Begin;
  }

  lemma BeginAlike(c: Catalog, db: DB, db': DB, run: nat)
    requires Alike(db, db', run)
    ensures StepsAlike(c, db, db', run, Starting, Proceed)
  {
    assert run < |db.runs| && run < |db'.runs|;
    hide Alike, Begin, StepWorker;
    StartingSteps(c, db, run);
    StartingSteps(c, db', run);
    BeginSame(db, db', run);
  }

  lemma PrepareAlike(c: Catalog, db: DB, db': DB, run: nat, at: Local)
    requires Alike(db, db', run)
    ensures StepsAlike(c, db, db', run, Preparing(at), Proceed)
  {
    hide Alike, AtLoopHead, SettleRun, RefundRun, Begin, SkillAt, Prepare, Account;
    TermsAlike(c, db, db', run, at);
    if SkillAt(c, db.runs[run], at.k).Some? {
      PrepareSame(db, db', run, at.k + 1, SkillAt(c, db.runs[run], at.k).value);
    }
  }

  lemma RecordAlike(c: Catalog, db: DB, db': DB, run: nat, at: Local, answer: Answer)
    requires Alike(db, db', run)
    ensures StepsAlike(c, db, db', run, Recording(at, answer), Proceed)
  {
    hide Alike, AtLoopHead, SettleRun, RefundRun, Begin, SkillAt, ChargeFor, Checkpoint, Account;
    TermsAlike(c, db, db', run, at);
    CheckpointSame(db, db', run, at.k + 1, answer, ChargeFor(c, db.runs[run], at.k, answer));
  }

  lemma SettleAlike(c: Catalog, db: DB, db': DB, run: nat, at: Local, verdict: Verdict)
    requires RowsOk(db.books, db.now) && RowsOk(db'.books, db'.now) && Alike(db, db', run)
    ensures StepsAlike(c, db, db', run, Settling(at, verdict), Proceed)
  {
    hide UsageOf, AtLoopHead, RefundRun, Begin, SettleRun, RowsOk, SkillAt, Post;
    SettleCloses(db.books, run, at.total, db.now);
    SettleCloses(db'.books, run, at.total, db'.now);
  }

  lemma RefundAlike(c: Catalog, db: DB, db': DB, run: nat, code: string)
    requires RowsOk(db.books, db.now) && RowsOk(db'.books, db'.now) && Alike(db, db', run)
    ensures StepsAlike(c, db, db', run, Failing(code), Proceed)
  {
    hide UsageOf, AtLoopHead, RefundRun, Begin, SettleRun, RowsOk, SkillAt, Post, ChargeEntries, RefundEntries;
    RefundCloses(db.books, run, db.now);
    RefundCloses(db'.books, run, db'.now);
  }

  lemma CloseAlike(c: Catalog, db: DB, db': DB, run: nat, pc: Pc, w: Closing)
    requires Alike(db, db', run) && run < |db.runs| && run < |db'.runs|
    requires pc.Concluding? || pc.MarkingFailed? || pc.MarkingBlocked?
    requires WorkerTxn(c, db, run, pc) == CloseTxn(run, w)
    ensures StepsAlike(c, db, db', run, pc, Proceed)
  {
    CloseSame(db, db', run, w);
    hide Alike, AtLoopHead, RefundRun, Begin, SettleRun, SkillAt, Close, ClosingOf;
  }

  lemma ReadAlike(c: Catalog, db: DB, db': DB, run: nat, pc: Pc, choice: Choice)
    requires Alike(db, db', run) && (choice.Raise? || pc.Looping? || pc.Calling? || pc.Logging? || Over(pc))
    ensures StepsAlike(c, db, db', run, pc, choice)
  {
    hide UsageOf, RefundRun, Begin, SettleRun, Prepare, Account;
  }

  /** A worker does the same in any two databases that are alike on its run, and leaves them alike. */
  lemma WorkerReadsItsRun(c: Catalog, db: DB, db': DB, run: nat, pc: Pc, provider: nat -> Response)
    requires Consistent(db) && Consistent(db') && Alike(db, db', run)
    ensures StepsAlike(c, db, db', run, pc, ChoiceAt(pc, provider))
  {
    assert RowsOk(db.books, db.now) && RowsOk(db'.books, db'.now) && run < |db.runs| && run < |db'.runs|;
    hide Consistent, RowsOk, Alike, StepsAlike;
    match pc
    case Starting => BeginAlike(c, db, db', run);
    case Preparing(at) => PrepareAlike(c, db, db', run, at);
    case Recording(at, answer) => RecordAlike(c, db, db', run, at, answer);
    case Settling(at, verdict) => SettleAlike(c, db, db', run, at, verdict);
    case Failing(code) => RefundAlike(c, db, db', run, code);
    case Concluding(at, verdict) => CloseAlike(c, db, db', run, pc, ClosingOf(at, verdict));
    case MarkingFailed(code) => CloseAlike(c, db, db', run, pc, Failed(code));
    case MarkingBlocked => CloseAlike(c, db, db', run, pc, BlockedAmbiguous);
    case _ => ReadAlike(c, db, db', run, pc, ChoiceAt(pc, provider));
  }

  lemma BlockKeeps(c: Catalog, db: DB, run: nat, pc: Pc, provider: nat -> Response)
    requires Consistent(db)
    ensures Consistent(Stepped(c, db, run, pc, provider).0)
  {
    hide Consistent, Apply, WorkerTxn, NextPc;
    ApplyKeeps(c, db, WorkerTxn(c, db, run, pc));
  }

  lemma {:induction false} SoloKeeps(c: Catalog, db: DB, run: nat, pc: Pc, provider: nat -> Response)
    requires Consistent(db)
    ensures Consistent(Solo(c, db, run, pc, provider))
    decreases Rank(c, db, run, pc)
  {
    hide Consistent, Stepped, Rank;
    if !Over(pc) {
      RankDrops(c, db, run, pc, provider);
      BlockKeeps(c, db, run, pc, provider);
      var next := Stepped(c, db, run, pc, provider);
      SoloKeeps(c, next.0, run, next.1, provider);
    }
  }

  /** So its whole execution ends alike. */
  lemma {:induction false} SoloReadsItsRun(c: Catalog, db: DB, db': DB, run: nat, pc: Pc, provider: nat -> Response)
    requires Consistent(db) && Consistent(db') && Alike(db, db', run)
    ensures Alike(Solo(c, db, run, pc, provider), Solo(c, db', run, pc, provider), run)
    decreases Rank(c, db, run, pc)
  {
    hide Consistent, Alike, StepWorker, Rank;
    if !Over(pc) {
      RankDrops(c, db, run, pc, provider);
      BlockKeeps(c, db, run, pc, provider);
      BlockKeeps(c, db', run, pc, provider);
      WorkerReadsItsRun(c, db, db', run, pc, provider);
      var (next, next') := (Stepped(c, db, run, pc, provider), Stepped(c, db', run, pc, provider));
      SoloReadsItsRun(c, next.0, next'.0, run, next.1, provider);
    }
  }
}
