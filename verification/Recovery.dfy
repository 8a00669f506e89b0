/** Crash recovery. A worker may crash after any block, and any transactions that do not write its
    run may commit between any two of its blocks. Which crashes make a difference, and which do not. */
module Recovery {
  import opened Rows
  import opened Tables
  import opened Pricing
  import opened Billing
  import opened RunBlocks
  import opened BooksInvariant
  import opened Transactions
  import opened Consistency
  import opened Machine
  import opened Protocol
  import opened Executor
  import opened Isolation
  import opened Attempts

  /** The points at which a crash is not made good: a provider call is out or its answer not yet
      recorded, or the settlement is committed and the status not yet written. */
  predicate Matters(db: DB, run: nat, pc: Pc) {
    || pc.Calling? || pc.Recording? || pc.Concluding?
    || ((pc.Failing? || pc.MarkingFailed?) && HasInFlight(db, run))
  }

  // ----- crashes that are made good -----

  /** A worker that rebuilds its loop variables is where the crashed one was. */
  lemma HeadIsReachedAgain(c: Catalog, db: DB, run: nat, at: Local, provider: nat -> Response)
    requires Active(db, run) && Rebuilds(c, db, run, at) && !HasInFlight(db, run)
    ensures Solo(c, db, run, Starting, provider) == Solo(c, db, run, Looping(at), provider)
    ensures Solo(c, db, run, Looping(at), provider) == Solo(c, db, run, AtLoopHead(c, db.runs[run], at), provider)
  {
    hide AtLoopHead, SkillAt, SettleRun, RefundRun, Begin, HasInFlight;
    Restart(c, db, run, provider);
    ReplayAll(c, db, run, at, provider);
    assert Stepped(c, db, run, Looping(at), provider) == (db, AtLoopHead(c, db.runs[run], at));
  }

  /** A step that ends in a failure leaves the database alone. */
  lemma FailingStepReads(c: Catalog, db: DB, run: nat, head: Pc, code: string)
    requires run < |db.runs| && (head.Preparing? || head.Settling?)
    requires NextPc(c, db, run, head, Proceed) == Failing(code)
    ensures StepWorker(c, db, run, head, Proceed) == (db, Failing(code))
  {
    hide SkillAt, Account, RefundRun, Begin;
    assert db.(books := db.books) == db;
  }

  lemma FailureIsReachedAgain(c: Catalog, db: DB, run: nat, at: Local, code: string, provider: nat -> Response)
    requires FailsAgain(c, db, run, at, code) && !HasInFlight(db, run)
    ensures Solo(c, db, run, Starting, provider) == Solo(c, db, run, Failing(code), provider)
  {
    HeadIsReachedAgain(c, db, run, at, provider);
    var head := AtLoopHead(c, db.runs[run], at);
    if head != Failing(code) {
      FailingStepReads(c, db, run, head, code);
      hide StepWorker, AtLoopHead, NextPc;
      assert Stepped(c, db, run, head, provider) == (db, Failing(code));
    }
  }

  lemma RefundedFailureIsReachedAgain(c: Catalog, db: DB, run: nat, code: string, provider: nat -> Response)
    requires RowsOk(db.books, db.now) && run < |db.runs| && NotOpen(db, run)
    ensures Solo(c, db, run, Failing(code), provider) == Solo(c, db, run, MarkingFailed(code), provider)
  {
    RefundCloses(db.books, run, db.now);
    assert db.(books := db.books) == db;
    hide RefundRun, RowsOk;
    assert Stepped(c, db, run, Failing(code), provider) == (db, MarkingFailed(code));
  }

  /** A run no longer QUEUED or RUNNING is left as it is. */
  lemma DoneIsLeftAlone(c: Catalog, db: DB, run: nat, provider: nat -> Response)
    requires run < |db.runs| && db.runs[run].status !in {Queued, Running}
    ensures Solo(c, db, run, Starting, provider) == db
    ensures Solo(c, db, run, Logging, provider) == db && Solo(c, db, run, Finished, provider) == db
  {
    assert Stepped(c, db, run, Starting, provider) == (db, Finished);
    assert Stepped(c, db, run, Logging, provider) == (db, Finished);
  }

  /** On a RUNNING run with a RUNNING checkpoint the next attempt hangs in its opening block: it
      writes nothing, calls nobody and does not mark the run BLOCKED. */
  lemma AmbiguousRunHangs(c: Catalog, db: DB, run: nat, provider: nat -> Response)
    requires run < |db.runs| && db.runs[run].status == Running && HasInFlight(db, run)
    ensures Stepped(c, db, run, Starting, provider) == (db, Hanging)
    ensures Solo(c, db, run, Starting, provider) == db && Solo(c, db, run, Hanging, provider) == db
  {
    assert Stepped(c, db, run, Starting, provider) == (db, Hanging);
  }

  lemma HarmlessCrash(c: Catalog, db: DB, run: nat, pc: Pc, provider: nat -> Response)
    requires RowsOk(db.books, db.now) && Knows(c, db, run, pc) && !Matters(db, run, pc)
    ensures Solo(c, db, run, Starting, provider) == Solo(c, db, run, pc, provider)
  {
    hide Solo, AtLoopHead, RowsOk, Rebuilds, FailsAgain, HasInFlight;
    match pc
    case Looping(at) => HeadIsReachedAgain(c, db, run, at, provider);
    case Preparing(at) => HeadIsReachedAgain(c, db, run, at, provider);
    case Settling(at, _) => HeadIsReachedAgain(c, db, run, at, provider);
    case Failing(code) =>
      var at :| FailsAgain(c, db, run, at, code);
      FailureIsReachedAgain(c, db, run, at, code, provider);
    case MarkingFailed(code) =>
      var at :| FailsAgain(c, db, run, at, code);
      FailureIsReachedAgain(c, db, run, at, code, provider);
      RefundedFailureIsReachedAgain(c, db, run, code, provider);
    case Hanging => AmbiguousRunHangs(c, db, run, provider);
    case Logging => DoneIsLeftAlone(c, db, run, provider);
    case Finished => DoneIsLeftAlone(c, db, run, provider);
    case _ =>
  }

  // ----- crashes that are not -----

  lemma StepKeepsCompleted(c: Catalog, db: DB, run: nat, pc: Pc, provider: nat -> Response, k: nat)
    requires StepDone(db, run, k)
    ensures StepDone(Stepped(c, db, run, pc, provider).0, run, k)
  {
    hide Apply, StepDone, SkillAt, ChargeFor, NextPc, RaisePc, ClosingOf;
    if !ChoiceAt(pc, provider).Raise? {
      TxnKeepsCompleted(c, db, WorkerTxn(c, db, run, pc), run, k);
    }
  }

  lemma TxnKeepsCompleted(c: Catalog, db: DB, txn: Txn, run: nat, k: nat)
    requires StepDone(db, run, k) && (txn.ReadOnly? || (Writes(txn) == Some(run) && !txn.CancelTxn? && !txn.ExpireTxn?))
    ensures StepDone(Apply(c, db, txn), run, k)
  {
    hide SettleRun, RefundRun, Closed, HasInFlight, FindEvent, Backoff;
  }

  /** A PASS checkpoint stays one to the end of the execution. */
  lemma {:induction false} SoloKeepsCompleted(c: Catalog, db: DB, run: nat, pc: Pc, provider: nat -> Response, k: nat)
    requires StepDone(db, run, k)
    ensures StepDone(Solo(c, db, run, pc, provider), run, k)
    decreases Rank(c, db, run, pc)
  {
    hide Stepped, Rank, StepDone;
    if !Over(pc) {
      RankDrops(c, db, run, pc, provider);
      StepKeepsCompleted(c, db, run, pc, provider, k);
      var next := Stepped(c, db, run, pc, provider);
      SoloKeepsCompleted(c, next.0, run, next.1, provider, k);
    }
  }

  lemma MarkingEnds(c: Catalog, db: DB, run: nat, code: string, provider: nat -> Response)
    requires run < |db.runs|
    ensures Solo(c, db, run, MarkingFailed(code), provider) == Close(db, run, Failed(code))
  {
    hide Close, SettleRun, RefundRun, Begin;
    var closed := Close(db, run, Failed(code));
    assert Stepped(c, db, run, MarkingFailed(code), provider) == (closed, Finished);
    assert Solo(c, db, run, MarkingFailed(code), provider) == Solo(c, closed, run, Finished, provider);
  }

  /** A failing worker ends the run FAIL. */
  lemma FailingEnds(c: Catalog, db: DB, run: nat, code: string, provider: nat -> Response)
    requires RowsOk(db.books, db.now) && run < |db.runs| && run < |db.books.reservations|
    ensures var end := Solo(c, db, run, Failing(code), provider); run < |end.runs| && end.runs[run].status == Fail
  {
    FailingGoes(c, db, run, code);
    var middle := WithBooks(db, RefundRun(db.books, run, db.now));
    hide RowsOk, RefundRun, StepWorker;
    assert Stepped(c, db, run, Failing(code), provider) == (middle, MarkingFailed(code));
    MarkingEnds(c, middle, run, code, provider);
  }

  lemma ConcludingEnds(c: Catalog, db: DB, run: nat, at: Local, verdict: Verdict, provider: nat -> Response)
    requires run < |db.runs|
    ensures Solo(c, db, run, Concluding(at, verdict), provider) == Close(db, run, ClosingOf(at, verdict))
  {
    hide ClosingOf, Closed, SettleRun, RefundRun, AtLoopHead, HasInFlight;
    var closed := Close(db, run, ClosingOf(at, verdict));
    assert Stepped(c, db, run, Concluding(at, verdict), provider) == (closed, Logging);
    assert Stepped(c, closed, run, Logging, provider) == (closed, Finished);
    assert Solo(c, closed, run, Logging, provider) == Solo(c, closed, run, Finished, provider);
  }

  lemma FailedDiffers(c: Catalog, db: DB, run: nat, pc: Pc, provider: nat -> Response, end: DB)
    requires run < |db.runs| && db.runs[run].status == Running && HasInFlight(db, run)
    requires run < |end.runs| && end == Solo(c, db, run, pc, provider)
    requires end.runs[run].status == Fail
    ensures !Alike(Solo(c, db, run, Starting, provider), end, run)
  {
    AmbiguousRunHangs(c, db, run, provider);
    hide Solo, UsageOf;
  }

  lemma RecordedDiffers(c: Catalog, db: DB, run: nat, k: nat, provider: nat -> Response, end: DB)
    requires run < |db.runs| && db.runs[run].status == Running
    requires OnlyInFlight(db, run, k) && StepDone(end, run, k)
    ensures !Alike(Solo(c, db, run, Starting, provider), end, run)
  {
    InFlightIsFound(db, run, k);
    AmbiguousRunHangs(c, db, run, provider);
    hide Solo, UsageOf, HasInFlight;
    assert (run, k).0 == run;
  }

  lemma RecordedStays(c: Catalog, db: DB, run: nat, at: Local, answer: Answer, skill: string, provider: nat -> Response)
    requires run < |db.runs| && SkillAt(c, db.runs[run], at.k) == Some(skill) && (run, at.k + 1) in db.executions
    ensures StepDone(Solo(c, db, run, Recording(at, answer), provider), run, at.k + 1)
  {
    hide StepWorker, ChargeFor, SkillAt, Account, Rank;
    RecordingGoes(c, db, run, at, answer, skill, ChargeFor(c, db.runs[run], at.k, answer));
    var next := Stepped(c, db, run, Recording(at, answer), provider);
    assert StepDone(next.0, run, at.k + 1);
    hide Stepped, StepDone, Checkpoint;
    SoloKeepsCompleted(c, next.0, run, next.1, provider, at.k + 1);
  }

  lemma RecordingMatters(c: Catalog, db: DB, run: nat, at: Local, answer: Answer, provider: nat -> Response)
    requires AtHead(c, db, run, at, Preparing(at)) && OnlyInFlight(db, run, at.k + 1)
    ensures !Alike(Solo(c, db, run, Starting, provider), Solo(c, db, run, Recording(at, answer), provider), run)
  {
    HeadHasSkill(c, db.runs[run], at);
    hide Solo, AtLoopHead, SkillAt, Alike, Rebuilds, StepDone;
    RecordedStays(c, db, run, at, answer, SkillAt(c, db.runs[run], at.k).value, provider);
    RecordedDiffers(c, db, run, at.k + 1, provider, Solo(c, db, run, Recording(at, answer), provider));
  }

  lemma CallingSteps(c: Catalog, db: DB, run: nat, at: Local, provider: nat -> Response)
    requires run < |db.runs|
    ensures Stepped(c, db, run, Calling(at), provider)
         == (db, match provider(at.k)
                 case Answered(answer) => Recording(at, answer)
                 case Errored(code) => Failing(code))
  {
  }

  lemma CallingMatters(c: Catalog, db: DB, run: nat, at: Local, provider: nat -> Response)
    requires RowsOk(db.books, db.now) && run < |db.books.reservations|
    requires AtHead(c, db, run, at, Preparing(at)) && OnlyInFlight(db, run, at.k + 1)
    ensures !Alike(Solo(c, db, run, Starting, provider), Solo(c, db, run, Calling(at), provider), run)
  {
    InFlightIsFound(db, run, at.k + 1);
    hide AtLoopHead, RowsOk, HasInFlight, Rebuilds, Alike, OnlyInFlight, Stepped;
    CallingSteps(c, db, run, at, provider);
    match provider(at.k)
    case Answered(answer) =>
      RecordingMatters(c, db, run, at, answer, provider);
    case Errored(code) =>
      FailingEnds(c, db, run, code, provider);
      FailedDiffers(c, db, run, Calling(at), provider, Solo(c, db, run, Calling(at), provider));
  }

  /** A crash between the settlement and the status write: the charge stands, and the next attempt
      only marks the run FAIL. */
  lemma SettledRunFails(c: Catalog, db: DB, run: nat, at: Local, verdict: Verdict, provider: nat -> Response)
    requires RowsOk(db.books, db.now) && Aligned(db) && OwnOk(db, run) && Knows(c, db, run, Concluding(at, verdict))
    ensures Solo(c, db, run, Starting, provider) == Close(db, run, Failed(NOT_OPEN))
  {
    hide AtLoopHead, RowsOk, HasInFlight, Rebuilds, StepWorker, Aligned, OwnOk;
    HeadIsReachedAgain(c, db, run, at, provider);
    SettlingGoes(c, db, run, at, verdict);
    RefundedFailureIsReachedAgain(c, db, run, NOT_OPEN, provider);
    MarkingEnds(c, db, run, NOT_OPEN, provider);
    assert Stepped(c, db, run, Settling(at, verdict), provider) == (db, Failing(NOT_OPEN));
  }

  lemma ConcludingMatters(c: Catalog, db: DB, run: nat, at: Local, verdict: Verdict, provider: nat -> Response)
    requires RowsOk(db.books, db.now) && Aligned(db) && OwnOk(db, run) && Knows(c, db, run, Concluding(at, verdict))
    ensures !Alike(Solo(c, db, run, Starting, provider), Solo(c, db, run, Concluding(at, verdict), provider), run)
  {
    SettledRunFails(c, db, run, at, verdict, provider);
    ConcludingEnds(c, db, run, at, verdict, provider);
    hide Solo, RowsOk, Aligned, AtLoopHead, Rebuilds, UsageOf, HasInFlight;
  }

  lemma FailureMatters(c: Catalog, db: DB, run: nat, pc: Pc, provider: nat -> Response)
    requires RowsOk(db.books, db.now) && run < |db.books.reservations|
    requires Active(db, run) && HasInFlight(db, run) && (pc.Failing? || pc.MarkingFailed?)
    ensures !Alike(Solo(c, db, run, Starting, provider), Solo(c, db, run, pc, provider), run)
  {
    hide Solo, RowsOk, HasInFlight, Alike;
    if pc.Failing? {
      FailingEnds(c, db, run, pc.code, provider);
    } else {
      MarkingEnds(c, db, run, pc.code, provider);
    }
    FailedDiffers(c, db, run, pc, provider, Solo(c, db, run, pc, provider));
  }

  lemma HarmfulCrash(c: Catalog, db: DB, run: nat, pc: Pc, provider: nat -> Response)
    requires RowsOk(db.books, db.now) && Aligned(db) && OwnOk(db, run) && Knows(c, db, run, pc) && Matters(db, run, pc)
    ensures !Alike(Solo(c, db, run, Starting, provider), Solo(c, db, run, pc, provider), run)
  {
    assert run < |db.books.reservations|;
    hide Solo, RowsOk, Aligned, OwnOk, HasInFlight, Alike, OnlyInFlight, AtHead, FailsAgain;
    match pc
    case Calling(at) => CallingMatters(c, db, run, at, provider);
    case Recording(at, answer) => RecordingMatters(c, db, run, at, answer, provider);
    case Concluding(at, verdict) => ConcludingMatters(c, db, run, at, verdict, provider);
    case _ => FailureMatters(c, db, run, pc, provider);
  }

  // ----- a journey: blocks, crashes, and everyone else -----

  /** `Retry`: the worker crashes and the job is delivered again. */
  datatype Move = Block | Retry | Other(txn: Txn)

  function Moved(c: Catalog, s: (DB, Pc), run: nat, provider: nat -> Response, m: Move): (DB, Pc) {
    match m
    case Block => Stepped(c, s.0, run, s.1, provider)
    case Retry => (s.0, Starting)
    case Other(txn) => (Apply(c, s.0, txn), s.1)
  }

  /** Where the run and its worker are after the given moves; a crashed worker is started again. */
  function Journey(c: Catalog, db: DB, run: nat, provider: nat -> Response, moves: seq<Move>): (DB, Pc) {
    if |moves| == 0 then (db, Starting)
    else Moved(c, Journey(c, db, run, provider, moves[..|moves| - 1]), run, provider, moves[|moves| - 1])
  }

  /** No other transaction writes the run, and no crash hits a point that matters. */
  predicate Calm(c: Catalog, db: DB, run: nat, provider: nat -> Response, moves: seq<Move>) {
    if |moves| == 0 then true
    else
      var front, last := moves[..|moves| - 1], moves[|moves| - 1];
      var before := Journey(c, db, run, provider, front);
      && Calm(c, db, run, provider, front)
      && (last.Retry? ==> !Matters(before.0, run, before.1))
      && (last.Other? ==> LeavesAlone(before.0, last.txn, run))
  }

  ghost predicate OnCourse(c: Catalog, s: (DB, Pc), run: nat) {
    Consistent(s.0) && OwnOk(s.0, run) && Knows(c, s.0, run, s.1)
  }

  lemma RunHasReservation(db: DB, run: nat)
    requires Consistent(db) && run < |db.runs|
    ensures Alike(db, db, run)
  {
  }

  lemma BlockOnCourse(c: Catalog, s: (DB, Pc), run: nat, provider: nat -> Response)
    requires ValidCatalog(c) && OnCourse(c, s, run)
    ensures OnCourse(c, Stepped(c, s.0, run, s.1, provider), run)
  {
    hide Consistent, OwnOk, Knows, Stepped;
    RowsOfConsistent(s.0);
    BlockKeeps(c, s.0, run, s.1, provider);
    BlockKnows(c, s.0, run, s.1, provider);
  }

  lemma OtherOnCourse(c: Catalog, s: (DB, Pc), run: nat, txn: Txn)
    requires OnCourse(c, s, run) && LeavesAlone(s.0, txn, run)
    ensures OnCourse(c, (Apply(c, s.0, txn), s.1), run) && Alike(s.0, Apply(c, s.0, txn), run)
  {
    assert run < |s.0.runs|;
    hide Consistent, OwnOk, Knows, Apply, Alike;
    ApplyKeeps(c, s.0, txn);
    OthersLeaveRun(c, s.0, txn, run);
    RowsOfConsistent(s.0);
    RowsOfConsistent(Apply(c, s.0, txn));
    OthersKeepKnowledge(c, s.0, Apply(c, s.0, txn), run, s.1);
  }

  lemma StartIsOnCourse(c: Catalog, db: DB, run: nat)
    requires OwnOk(db, run) && Consistent(db)
    ensures OnCourse(c, (db, Starting), run)
  {
  }

  lemma BlockGoesOn(c: Catalog, s: (DB, Pc), run: nat, provider: nat -> Response)
    ensures var next := Stepped(c, s.0, run, s.1, provider);
            Solo(c, next.0, run, next.1, provider) == Solo(c, s.0, run, s.1, provider)
  {
    if Over(s.1) {
      assert Stepped(c, s.0, run, s.1, provider)
          == (s.0, if s.1.Hanging? && run < |s.0.runs| then Hanging else Finished);
    } else {
      hide Stepped;
    }
  }

  /** One move keeps the course, and the end it leads to. */
  lemma MoveKeepsCourse(c: Catalog, s: (DB, Pc), run: nat, provider: nat -> Response, m: Move)
    requires ValidCatalog(c) && OnCourse(c, s, run)
    requires m.Retry? ==> !Matters(s.0, run, s.1)
    requires m.Other? ==> LeavesAlone(s.0, m.txn, run)
    ensures var next := Moved(c, s, run, provider, m);
            && OnCourse(c, next, run)
            && Alike(Solo(c, s.0, run, s.1, provider), Solo(c, next.0, run, next.1, provider), run)
  {
    hide Stepped, Apply, Alike, Knows, OwnOk, Consistent, Matters, Solo, LeavesAlone;
    SoloStaysAlike(c, s, run, provider);
    match m
    case Block =>
      BlockOnCourse(c, s, run, provider);
      BlockGoesOn(c, s, run, provider);
    case Retry =>
      RowsOfConsistent(s.0);
      HarmlessCrash(c, s.0, run, s.1, provider);
      StartIsOnCourse(c, s.0, run);
    case Other(txn) =>
      ApplyKeeps(c, s.0, txn);
      OtherOnCourse(c, s, run, txn);
      SoloReadsItsRun(c, s.0, Apply(c, s.0, txn), run, s.1, provider);
  }

  lemma SoloStaysAlike(c: Catalog, s: (DB, Pc), run: nat, provider: nat -> Response)
    requires OnCourse(c, s, run)
    ensures Alike(Solo(c, s.0, run, s.1, provider), Solo(c, s.0, run, s.1, provider), run)
  {
    hide Consistent, Alike, Solo, Knows;
    RunHasReservation(s.0, run);
    SoloReadsItsRun(c, s.0, s.0, run, s.1, provider);
  }

  /** After any calm journey the worker is on course, for the same end. */
  lemma {:induction false} JourneyKeepsCourse(c: Catalog, db: DB, run: nat, provider: nat -> Response, moves: seq<Move>)
    requires ValidCatalog(c) && Consistent(db) && OwnOk(db, run) && Calm(c, db, run, provider, moves)
    ensures var now := Journey(c, db, run, provider, moves);
            && OnCourse(c, now, run)
            && Alike(Solo(c, db, run, Starting, provider), Solo(c, now.0, run, now.1, provider), run)
    decreases |moves|
  {
    hide OnCourse, Consistent, OwnOk, Solo, Alike, Moved, LeavesAlone;
    StartIsOnCourse(c, db, run);
    if |moves| == 0 {
      SoloStaysAlike(c, (db, Starting), run, provider);
    } else {
      var front, last := moves[..|moves| - 1], moves[|moves| - 1];
      JourneyKeepsCourse(c, db, run, provider, front);
      var before := Journey(c, db, run, provider, front);
      MoveKeepsCourse(c, before, run, provider, last);
      var now := Moved(c, before, run, provider, last);
      AlikeBothWays(Solo(c, db, run, Starting, provider), Solo(c, before.0, run, before.1, provider),
                    Solo(c, now.0, run, now.1, provider), run);
    }
  }

  // ----- the instant of the start -----

  lemma StepKeepsStart(c: Catalog, db: DB, run: nat, pc: Pc, provider: nat -> Response)
    requires run < |db.runs| && db.runs[run].startedAt.Some?
    ensures var db' := Stepped(c, db, run, pc, provider).0;
            run < |db'.runs| && db'.runs[run].startedAt == db.runs[run].startedAt
  {
    hide SettleRun, RefundRun, SkillAt, ChargeFor, NextPc, RaisePc, Begin, Close, ClosingOf;
    if Begin(db, run).Committed? {
      BeginKeepsStart(db, run);
    }
    if pc.Concluding? || pc.MarkingFailed? || pc.MarkingBlocked? {
      CloseKeepsStart(db, run, WorkerTxn(c, db, run, pc).closing);
    }
  }

  lemma BeginKeepsStart(db: DB, run: nat)
    requires run < |db.runs| && db.runs[run].startedAt.Some? && Begin(db, run).Committed?
    ensures var db' := Begin(db, run).value.0; run < |db'.runs| && db'.runs[run].startedAt == db.runs[run].startedAt
  {
    hide HasInFlight;
  }

  lemma CloseKeepsStart(db: DB, run: nat, w: Closing)
    requires run < |db.runs|
    ensures var db' := Close(db, run, w); run < |db'.runs| && db'.runs[run].startedAt == db.runs[run].startedAt
  {
  }

  lemma {:induction false} SoloKeepsStart(c: Catalog, db: DB, run: nat, pc: Pc, provider: nat -> Response)
    requires run < |db.runs| && db.runs[run].startedAt.Some?
    ensures var end := Solo(c, db, run, pc, provider);
            run < |end.runs| && end.runs[run].startedAt == db.runs[run].startedAt
    decreases Rank(c, db, run, pc)
  {
    hide Stepped, Rank;
    if !Over(pc) {
      RankDrops(c, db, run, pc, provider);
      StepKeepsStart(c, db, run, pc, provider);
      var next := Stepped(c, db, run, pc, provider);
      SoloKeepsStart(c, next.0, run, next.1, provider);
    }
  }

  lemma {:induction false} JourneyKeepsStart(c: Catalog, db: DB, run: nat, provider: nat -> Response, moves: seq<Move>)
    requires Consistent(db) && run < |db.runs| && db.runs[run].startedAt.Some?
    requires Calm(c, db, run, provider, moves)
    ensures var now := Journey(c, db, run, provider, moves).0;
            Consistent(now) && run < |now.runs| && now.runs[run].startedAt == db.runs[run].startedAt
    decreases |moves|
  {
    hide Consistent, Stepped, Apply;
    if |moves| > 0 {
      var front, last := moves[..|moves| - 1], moves[|moves| - 1];
      JourneyKeepsStart(c, db, run, provider, front);
      var before := Journey(c, db, run, provider, front);
      match last
      case Block =>
        BlockKeeps(c, before.0, run, before.1, provider);
        StepKeepsStart(c, before.0, run, before.1, provider);
      case Retry =>
      case Other(txn) =>
        ApplyKeeps(c, before.0, txn);
        OthersLeaveRun(c, before.0, txn, run);
    }
  }

  // ----- the results -----

  /** However its blocks interleave with other transactions, and however often it crashes at points
      that do not matter, an execution ends with the run row, reservation, checkpoints, usage and
      ledger rows of one uninterrupted execution. (Only the instant of its start may be later, if it
      had not been started yet.) */
  lemma InterruptionsDoNotMatter(c: Catalog, db: DB, run: nat, provider: nat -> Response, moves: seq<Move>, end: DB,
                                 pc: Pc)
    requires ValidCatalog(c) && Consistent(db) && RunsOk(c, db) && run < |db.runs|
    requires Calm(c, db, run, provider, moves) && Journey(c, db, run, provider, moves) == (end, pc) && Over(pc)
    ensures Consistent(end) && Alike(Solo(c, db, run, Starting, provider), end, run)
    ensures Posted(end.books.ledger, Held(run)) == Posted(Solo(c, db, run, Starting, provider).books.ledger, Held(run))
    ensures db.runs[run].startedAt.Some? ==> end.runs[run] == Solo(c, db, run, Starting, provider).runs[run]
  {
    ReachableIsOwnOk(c, db, run);
    JourneyKeepsCourse(c, db, run, provider, moves);
    SoloKeeps(c, db, run, Starting, provider);
    var alone := Solo(c, db, run, Starting, provider);
    assert Solo(c, end, run, pc, provider) == end;
    hide RunsOk, OwnOk, Solo, Consistent, Knows;
    SameLedgerRows(alone, end, run);
    if db.runs[run].startedAt.Some? {
      JourneyKeepsStart(c, db, run, provider, moves);
      SoloKeepsStart(c, db, run, Starting, provider);
    }
  }

  /** At any point of such an execution a crash is made good exactly when it does not matter: the
      next attempt then leaves the very database that going on would have left, and otherwise it
      leaves the run differently. */
  lemma CrashMattersExactlyWhen(c: Catalog, db: DB, run: nat, provider: nat -> Response, moves: seq<Move>,
                                now: (DB, Pc))
    requires ValidCatalog(c) && Consistent(db) && RunsOk(c, db) && run < |db.runs|
    requires Calm(c, db, run, provider, moves) && now == Journey(c, db, run, provider, moves)
    ensures Solo(c, now.0, run, Starting, provider) == Solo(c, now.0, run, now.1, provider)
       <==> !Matters(now.0, run, now.1)
    ensures Matters(now.0, run, now.1) ==>
              !Alike(Solo(c, now.0, run, Starting, provider), Solo(c, now.0, run, now.1, provider), run)
  {
    ReachableIsOwnOk(c, db, run);
    JourneyKeepsCourse(c, db, run, provider, moves);
    SoloStaysAlike(c, now, run, provider);
    RowsOfConsistent(now.0);
    hide Solo, Consistent, RunsOk, OwnOk, Knows, Alike, Matters, RowsOk, Aligned, Journey, Calm;
    if Matters(now.0, run, now.1) {
      HarmfulCrash(c, now.0, run, now.1, provider);
    } else {
      HarmlessCrash(c, now.0, run, now.1, provider);
    }
  }

  /** With nothing else going on: a crash after n blocks leads to the database of the uninterrupted
      execution exactly when it does not matter. */
  lemma CrashAndResume(c: Catalog, db: DB, run: nat, provider: nat -> Response, n: nat)
    requires ValidCatalog(c) && Consistent(db) && RunsOk(c, db)
    ensures var now := SoloSteps(c, db, run, provider, n);
            Solo(c, now.0, run, Starting, provider) == Solo(c, db, run, Starting, provider) <==> !Matters(now.0, run,
                                                                                                          now.1)
  {
    hide RunsOk, Consistent, Solo, SoloSteps, HasInFlight;
    SoloEndsTheSame(c, db, run, provider, n);
    if run < |db.runs| {
      BlocksAreAJourney(c, db, run, provider, n);
      CrashMattersExactlyWhen(c, db, run, provider, Blocks(n), SoloSteps(c, db, run, provider, n));
    } else {
      NoSuchRun(c, db, run, provider, n);
    }
  }

  function Blocks(n: nat): seq<Move> {
    seq(n, _ => Block)
  }

  lemma {:induction false} BlocksAreAJourney(c: Catalog, db: DB, run: nat, provider: nat -> Response, n: nat)
    ensures Journey(c, db, run, provider, Blocks(n)) == SoloSteps(c, db, run, provider, n)
    ensures Calm(c, db, run, provider, Blocks(n))
  {
    hide Stepped;
    if n > 0 {
      BlocksAreAJourney(c, db, run, provider, n - 1);
      assert Blocks(n)[..n - 1] == Blocks(n - 1);
    }
  }

  lemma {:induction false} SoloEndsTheSame(c: Catalog, db: DB, run: nat, provider: nat -> Response, n: nat)
    ensures var now := SoloSteps(c, db, run, provider, n);
            Solo(c, now.0, run, now.1, provider) == Solo(c, db, run, Starting, provider)
  {
    hide Stepped, Solo;
    if n > 0 {
      SoloEndsTheSame(c, db, run, provider, n - 1);
      BlockGoesOn(c, SoloSteps(c, db, run, provider, n - 1), run, provider);
    }
  }

  lemma {:induction false} NoSuchRun(c: Catalog, db: DB, run: nat, provider: nat -> Response, n: nat)
    requires run >= |db.runs|
    ensures var now := SoloSteps(c, db, run, provider, n); now.0 == db && (now.1.Starting? || now.1.Finished?)
  {
    hide Stepped;
    if n > 0 {
      NoSuchRun(c, db, run, provider, n - 1);
      NoSuchRunStops(c, db, run, provider, SoloSteps(c, db, run, provider, n - 1).1);
    }
  }

  lemma NoSuchRunStops(c: Catalog, db: DB, run: nat, provider: nat -> Response, pc: Pc)
    requires run >= |db.runs| && (pc.Starting? || pc.Finished?)
    ensures Stepped(c, db, run, pc, provider) == (db, Finished)
  {
  }
}
