/** Concrete traces from an empty database to what the protocol does not prevent: holds stranded in each
    of the three ways, a block that waits for itself, closing statuses overwritten, and a job dropped. */
module Mishaps {
  import opened Rows
  import opened Tables
  import opened Billing
  import opened RunBlocks
  import opened Transactions
  import opened Consistency
  import opened Machine
  import opened Protocol
  import opened Reachability
  import opened Executor
  import Isolation
  import opened Stranding
  import opened Witness
  import Delivery
  import Locks
  import Statuses

  // ----- stranded by a cancellation request and a crash -----

  const ASKED: seq<Event> :=
    [Spawn(Worker(0, Starting)), Act(1, Proceed), Spawn(Canceller(0, 0, Requesting)), Act(2, Proceed), Crash(1)]
  const RUNNING := With(STARTED, Looping(NOTHING_DONE), NONE)
  const ASKING := Delivered(STARTED, RUNNING.actors + [Canceller(0, 0, Requesting)], NONE)

  lemma CancellerComes()
    ensures Do(SHOP, RUNNING, Spawn(Canceller(0, 0, Requesting))) == ASKING
  {
  }

  lemma AskingIsReached()
    ensures After(SHOP, DISPATCHED, ASKED) == Do(SHOP, Do(SHOP, ASKING, Act(2, Proceed)), Crash(1))
  {
    hide Do, With;
    FirstMoves();
    OtherMoves();
    CancellerComes();
    var after := Do(SHOP, ASKING, Act(2, Proceed));
    AfterStates(SHOP, ASKED, [DISPATCHED, With(QUEUED, Starting, NONE), RUNNING, ASKING, after, Do(SHOP, after,
                                                                                                   Crash(1))]);
  }

  lemma BlocksAreConsistent()
    ensures Consistent(STARTED) && Consistent(WAITING)
  {
    ShopIsValid();
    QueuedIsReached();
    AlwaysSafe(SHOP, 0, 0, TO_QUEUED);
    Starts(ANSWERING);
    Inserts(ANSWERING);
    hide Consistent, After, Stepped, RunsOk, ActorsOk, CallsOk, ClaimsDiffer, Apply;
    assert Consistent(QUEUED);
    Isolation.BlockKeeps(SHOP, QUEUED, 0, Starting, ANSWERING);
    Isolation.BlockKeeps(SHOP, STARTED, 0, Preparing(NOTHING_DONE), ANSWERING);
  }

  /** A tenant pays, a run is admitted, dispatched and started, its cancellation is requested, and its
      worker crashes: the hold stays open for good. */
  lemma CancelledIsStranded()
    ensures Stranded(After(SHOP, Boot(0, 0), TO_QUEUED + ASKED), 0)
  {
    hide Consistent, Stranded, Do, After;
    QueuedIsReached();
    AskingIsReached();
    AfterConcat(SHOP, Boot(0, 0), TO_QUEUED, ASKED);
    BlocksAreConsistent();
    CancelThenCrashStrands(SHOP, ASKING, 0, 1, 2);
  }

  // ----- stranded by a crash during a provider call, and the next attempt -----

  const TO_CALLING: seq<Event> := [Spawn(Worker(0, Starting)), Act(1, Proceed), Act(1, Proceed), Act(1, Proceed)]
  const CALLING := With(WAITING, Calling(NOTHING_DONE), NONE)

  lemma CallingIsReached()
    ensures After(SHOP, Boot(0, 0), TO_QUEUED + TO_CALLING) == CALLING
  {
    hide Do, With;
    FirstMoves();
    OtherMoves();
    AfterStates(SHOP, TO_CALLING,
                [DISPATCHED, With(QUEUED, Starting, NONE), With(STARTED, Looping(NOTHING_DONE), NONE),
                 With(STARTED, Preparing(NOTHING_DONE), NONE), CALLING]);
    QueuedIsReached();
    AfterConcat(SHOP, Boot(0, 0), TO_QUEUED, TO_CALLING);
  }

  /** The worker crashes while the provider works: the hold stays open for good. */
  lemma InFlightIsStranded()
    ensures Stranded(After(SHOP, Boot(0, 0), TO_QUEUED + TO_CALLING + [Crash(1)]), 0)
  {
    hide Consistent, Do, After;
    CallingIsReached();
    AfterConcat(SHOP, Boot(0, 0), TO_QUEUED + TO_CALLING, [Crash(1)]);
    AfterOne(CALLING, Crash(1));
    BlocksAreConsistent();
    SameInFlightAfter(WAITING);
    hide Stranded;
    CrashInFlightStrands(SHOP, CALLING, 0, 1);
  }

  lemma AfterOne(s: Sys, e: Event)
    ensures After(SHOP, s, [e]) == Do(SHOP, s, e)
  {
    hide Do;
    assert [e][..0] == [];
    assert After(SHOP, s, []) == s;
  }

  const RETRIED: seq<Event> := [Crash(1), Spawn(Worker(0, Starting)), Act(2, Proceed)]
  const HUNG := Delivered(WAITING, [Dispatcher(0, DispatchOver), Worker(0, Finished), Worker(0, Hanging)], ONE)

  const DEAD := Delivered(WAITING, [Dispatcher(0, DispatchOver), Worker(0, Finished)], ONE)
  const AGAIN := Delivered(WAITING, DEAD.actors + [Worker(0, Starting)], ONE)

  lemma RetryComes()
    ensures Do(SHOP, CALLING, Crash(1)) == DEAD
    ensures Do(SHOP, DEAD, Spawn(Worker(0, Starting))) == AGAIN
  {
  }

  lemma RetryHangs()
    ensures Do(SHOP, AGAIN, Act(2, Proceed)) == HUNG
  {
    SameInFlightAfter(WAITING);
    hide HasInFlight;
    assert StepActor(SHOP, WAITING, Worker(0, Starting), Proceed) == (WAITING, Worker(0, Hanging));
    hide StepActor;
  }

  lemma HungIsReached()
    ensures After(SHOP, Boot(0, 0), TO_QUEUED + TO_CALLING + RETRIED) == HUNG
  {
    hide Do, With;
    CallingIsReached();
    RetryComes();
    RetryHangs();
    AfterStates(SHOP, RETRIED, [CALLING, DEAD, AGAIN, HUNG]);
    AfterConcat(SHOP, Boot(0, 0), TO_QUEUED + TO_CALLING, RETRIED);
  }

  /** The next attempt hangs in its opening block, whose second session waits for the row it holds. */
  lemma HangingIsReached()
    ensures var s := After(SHOP, Boot(0, 0), TO_QUEUED + TO_CALLING + RETRIED);
            && Worker(0, Hanging) in s.actors && Pending(s.db, 0)
            && Locks.HangingBlock(s.db, Locks.Transaction(BeginRun(0)))
  {
    HungIsReached();
    hide After;
    assert HUNG.actors[2] == Worker(0, Hanging);
    SameInFlightAfter(WAITING);
  }

  // ----- stranded by an exception that ends the job -----

  const RAISED: seq<Event> := [Spawn(Worker(0, Starting)), Act(1, Proceed), Act(1, Raise("lost")),
                               Act(1, Raise("lost"))]

  const FAILING := With(STARTED, Failing("lost"), NONE)
  const ENDED := Sys(STARTED, [Dispatcher(0, DispatchOver), Worker(0, Finished)], NONE, {}, {0})

  lemma WorkerRaises()
    ensures Do(SHOP, RUNNING, Act(1, Raise("lost"))) == FAILING
    ensures Do(SHOP, FAILING, Act(1, Raise("lost"))) == ENDED
  {
  }

  lemma EndedIsReached()
    ensures After(SHOP, Boot(0, 0), TO_QUEUED + RAISED) == ENDED
  {
    hide Do, With;
    FirstMoves();
    OtherMoves();
    WorkerRaises();
    AfterStates(SHOP, RAISED, [DISPATCHED, With(QUEUED, Starting, NONE), RUNNING, FAILING, ENDED]);
    QueuedIsReached();
    AfterConcat(SHOP, Boot(0, 0), TO_QUEUED, RAISED);
  }

  /** The worker fails, its refund raises, and the job is not delivered again. */
  lemma UnservedIsStranded()
    ensures Stranded(After(SHOP, Boot(0, 0), TO_QUEUED + RAISED), 0)
  {
    hide Consistent, Do, After;
    EndedIsReached();
    BlocksAreConsistent();
  }

  // ----- PASS over CANCEL_REQUESTED -----

  const TO_SETTLING: seq<Event> :=
    [Spawn(Worker(0, Starting)), Act(1, Proceed), Act(1, Proceed), Act(1, Proceed), Act(1, Reply(ANSWER)),
     Act(1, Proceed),
     Act(1, Proceed)]

  lemma SettlingIsReached()
    ensures After(SHOP, Boot(0, 0), TO_QUEUED + TO_SETTLING) == With(RECORDED, SETTLING, ONE)
  {
    hide Do, With;
    FirstMoves();
    LastMoves();
    OtherMoves();
    AfterStates(SHOP, TO_SETTLING,
                [DISPATCHED, With(QUEUED, Starting, NONE), With(STARTED, Looping(NOTHING_DONE), NONE),
                 With(STARTED, Preparing(NOTHING_DONE), NONE), With(WAITING, Calling(NOTHING_DONE), NONE),
                 With(WAITING, Recording(NOTHING_DONE, ANSWER), ONE), With(RECORDED, Looping(DONE), ONE),
                 With(RECORDED, SETTLING, ONE)]);
    QueuedIsReached();
    AfterConcat(SHOP, Boot(0, 0), TO_QUEUED, TO_SETTLING);
  }

  const CONCLUDING := Concluding(DONE, WorkflowDone)
  const CANCELLING := RECORDED.(runs := [RUN.(status := CancelRequested, cancelRequested := true,
                                              startedAt := Some(0))])
  const TO_CONCLUDING: seq<Event> := [Spawn(Canceller(0, 0, Requesting)), Act(2, Proceed), Act(1, Proceed)]

  function Trio(db: DB, worker: Pc, cancel: CancelPc): Sys {
    Delivered(db, [Dispatcher(0, DispatchOver), Worker(0, worker), Canceller(0, 0, cancel)], ONE)
  }

  lemma CancelArrivesLate()
    ensures Do(SHOP, With(RECORDED, SETTLING, ONE), Spawn(Canceller(0, 0, Requesting)))
         == Trio(RECORDED, SETTLING, Requesting)
    ensures Do(SHOP, Trio(RECORDED, SETTLING, Requesting), Act(2, Proceed)) == Trio(CANCELLING, SETTLING, CancelOver)
  {
    assert CANCELLING.runs == RECORDED.runs[0 := CANCELLING.runs[0]];
  }

  lemma SettlesAnyway()
    ensures Do(SHOP, Trio(CANCELLING, SETTLING, CancelOver), Act(1, Proceed))
         == Trio(Apply(SHOP, CANCELLING, SettleTxn(0, 5)), CONCLUDING, CancelOver)
    ensures Apply(SHOP, CANCELLING, SettleTxn(0, 5)).runs == CANCELLING.runs
  {
    assert CANCELLING.books.reservations[0].run == 0;
    hide Apply;
    assert SettleRun(CANCELLING.books, 0, 5, 0).Committed?;
  }

  predicate HasStatus(s: Sys, run: nat, status: RunStatus) {
    run < |s.db.runs| && s.db.runs[run].status == status
  }

  lemma ConcludingIsReached()
    ensures After(SHOP, Boot(0, 0), TO_QUEUED + TO_SETTLING + TO_CONCLUDING)
         == Trio(Apply(SHOP, CANCELLING, SettleTxn(0, 5)), CONCLUDING, CancelOver)
  {
    hide Do, With, Trio, Apply;
    SettlesAnyway();
    SettlingIsReached();
    CancelArrivesLate();
    AfterStates(SHOP, TO_CONCLUDING,
                [With(RECORDED, SETTLING, ONE), Trio(RECORDED, SETTLING, Requesting),
                 Trio(CANCELLING, SETTLING, CancelOver),
                 Trio(Apply(SHOP, CANCELLING, SettleTxn(0, 5)), CONCLUDING, CancelOver)]);
    AfterConcat(SHOP, Boot(0, 0), TO_QUEUED + TO_SETTLING, TO_CONCLUDING);
  }

  lemma Passes(s: Sys, status: RunStatus)
    requires HasStatus(s, 0, status) && |s.actors| >= 2 && s.actors[1] == Worker(0, CONCLUDING)
    requires Worker(0, Hanging) !in s.actors
    ensures HasStatus(Do(SHOP, s, Act(1, Proceed)), 0, Pass)
  {
  }

  /** A cancellation is requested while the worker is past its last look at it: the worker settles and
      writes PASS over CANCEL_REQUESTED. */
  lemma PassOverCancelRequested()
    ensures var s := After(SHOP, Boot(0, 0), TO_QUEUED + TO_SETTLING + TO_CONCLUDING);
            && HasStatus(s, 0, CancelRequested) && HasStatus(Do(SHOP, s, Act(1, Proceed)), 0, Pass)
            && !Statuses.Legal(CancelRequested, Pass)
  {
    SettlesAnyway();
    hide Do, After, Apply;
    ConcludingIsReached();
    Passes(Trio(Apply(SHOP, CANCELLING, SettleTxn(0, 5)), CONCLUDING, CancelOver), CancelRequested);
  }

  // ----- FAIL over PASS -----

  const REDELIVERED: seq<Event> :=
    [Spawn(Worker(0, Starting)), Act(2, Proceed), Act(2, Proceed), Act(2, Proceed), Act(2, Proceed)]

  function Both(db: DB, first: Pc, second: Pc): Sys {
    Delivered(db, [Dispatcher(0, DispatchOver), Worker(0, first), Worker(0, second)], ONE)
  }

  lemma Replays()
    ensures Stepped(SHOP, RECORDED, 0, Starting, ANSWERING) == (RECORDED, Looping(NOTHING_DONE))
    ensures Stepped(SHOP, RECORDED, 0, Looping(NOTHING_DONE), ANSWERING) == (RECORDED, Preparing(NOTHING_DONE))
    ensures Stepped(SHOP, RECORDED, 0, Preparing(NOTHING_DONE), ANSWERING) == (RECORDED, Looping(DONE))
  {
    assert RECORDED.runs[0 := RECORDED.runs[0]] == RECORDED.runs;
    assert SkillAt(SHOP, STARTED.runs[0], 0) == Some("summary");
    assert DONE.steps == NOTHING_DONE.steps + [Step("summary", "text", "resp", 5)];
  }

  lemma SecondMoves(first: Pc, pc: Pc, next: Pc)
    requires Stepped(SHOP, RECORDED, 0, pc, ANSWERING) == (RECORDED, next)
    requires !pc.Calling? && !Over(first) && !Over(pc) && !Over(next)
    ensures Do(SHOP, Both(RECORDED, first, pc), Act(2, Proceed)) == Both(RECORDED, first, next)
  {
    hide StepWorker;
  }

  lemma SecondComes()
    ensures Do(SHOP, With(RECORDED, SETTLING, ONE), Spawn(Worker(0, Starting))) == Both(RECORDED, SETTLING, Starting)
  {
  }

  lemma BothSettle()
    ensures After(SHOP, Boot(0, 0), TO_QUEUED + TO_SETTLING + REDELIVERED) == Both(RECORDED, SETTLING, SETTLING)
  {
    hide Do, With, Both, Stepped;
    SettlingIsReached();
    SecondComes();
    Replays();
    Answers(ANSWERING);
    SecondMoves(SETTLING, Starting, Looping(NOTHING_DONE));
    SecondMoves(SETTLING, Looping(NOTHING_DONE), Preparing(NOTHING_DONE));
    SecondMoves(SETTLING, Preparing(NOTHING_DONE), Looping(DONE));
    SecondMoves(SETTLING, Looping(DONE), SETTLING);
    AfterStates(SHOP, REDELIVERED,
                [With(RECORDED, SETTLING, ONE), Both(RECORDED, SETTLING, Starting),
                 Both(RECORDED, SETTLING, Looping(NOTHING_DONE)), Both(RECORDED, SETTLING, Preparing(NOTHING_DONE)),
                 Both(RECORDED, SETTLING, Looping(DONE)), Both(RECORDED, SETTLING, SETTLING)]);
    AfterConcat(SHOP, Boot(0, 0), TO_QUEUED + TO_SETTLING, REDELIVERED);
  }

  const SETTLED := Apply(SHOP, RECORDED, SettleTxn(0, 5))
  const PASSED := Close(SETTLED, 0, ClosingOf(DONE, WorkflowDone))
  const TO_MARKING: seq<Event> := [Act(1, Proceed), Act(1, Proceed), Act(2, Proceed), Act(2, Proceed)]

  lemma SettledFacts()
    ensures SettleRun(RECORDED.books, 0, 5, 0).Committed?
    ensures SettleRun(SETTLED.books, 0, 5, 0) == RolledBack(ReservationNotOpen)
    ensures RefundRun(SETTLED.books, 0, 0) == Committed(SETTLED.books)
    ensures SETTLED.runs == RECORDED.runs && SETTLED.now == 0
  {
    assert RECORDED.books.reservations[0].run == 0;
    assert SETTLED.books.reservations[0].run == 0;
  }

  lemma FirstSettles()
    ensures Do(SHOP, Both(RECORDED, SETTLING, SETTLING), Act(1, Proceed)) == Both(SETTLED, CONCLUDING, SETTLING)
  {
    SettledFacts();
    hide SettleRun;
  }

  lemma FirstPasses()
    ensures Do(SHOP, Both(SETTLED, CONCLUDING, SETTLING), Act(1, Proceed)) == Both(PASSED, Logging, SETTLING)
  {
    SettledFacts();
    hide SettleRun;
  }

  lemma SecondFails()
    ensures Do(SHOP, Both(PASSED, Logging, SETTLING), Act(2, Proceed)) == Both(PASSED, Logging, Failing(NOT_OPEN))
  {
    SettledFacts();
    hide SettleRun, RefundRun;
  }

  lemma SecondRefundsNothing()
    ensures Do(SHOP, Both(PASSED, Logging, Failing(NOT_OPEN)), Act(2, Proceed))
         == Both(PASSED, Logging, MarkingFailed(NOT_OPEN))
  {
    SettledFacts();
    hide SettleRun, RefundRun;
  }

  lemma MarkingIsReached()
    ensures After(SHOP, Boot(0, 0), TO_QUEUED + TO_SETTLING + REDELIVERED + TO_MARKING)
         == Both(PASSED, Logging, MarkingFailed(NOT_OPEN))
  {
    hide Do, Both;
    BothSettle();
    FirstSettles();
    FirstPasses();
    SecondFails();
    SecondRefundsNothing();
    AfterStates(SHOP, TO_MARKING,
                [Both(RECORDED, SETTLING, SETTLING), Both(SETTLED, CONCLUDING, SETTLING),
                 Both(PASSED, Logging, SETTLING),
                 Both(PASSED, Logging, Failing(NOT_OPEN)), Both(PASSED, Logging, MarkingFailed(NOT_OPEN))]);
    AfterConcat(SHOP, Boot(0, 0), TO_QUEUED + TO_SETTLING + REDELIVERED, TO_MARKING);
  }

  lemma Fails(s: Sys, code: string)
    requires HasStatus(s, 0, Pass) && |s.actors| >= 3 && s.actors[2] == Worker(0, MarkingFailed(code))
    requires Worker(0, Hanging) !in s.actors
    ensures HasStatus(Do(SHOP, s, Act(2, Proceed)), 0, Fail)
  {
  }

  /** A job delivered twice: the second worker finds the reservation settled and writes FAIL over PASS. */
  lemma FailOverPass()
    ensures var s := After(SHOP, Boot(0, 0), TO_QUEUED + TO_SETTLING + REDELIVERED + TO_MARKING);
            && HasStatus(s, 0, Pass) && HasStatus(Do(SHOP, s, Act(2, Proceed)), 0, Fail)
            && !Statuses.Legal(Pass, Fail)
  {
    SettledFacts();
    hide Do, After;
    MarkingIsReached();
    Fails(Both(PASSED, Logging, MarkingFailed(NOT_OPEN)), NOT_OPEN);
  }

  // ----- a job dropped -----

  const TO_DROPPED: seq<Event> := [Spawn(Worker(0, Starting)), Act(1, Proceed), Act(0, Proceed)]
  const DROPPED := Sys(QUEUED, [Dispatcher(0, DispatchOver), Worker(0, Finished)], NONE, {}, {0})

  function Racing(pc: DispatchPc, worker: Pc, jobs: set<nat>): Sys {
    Sys(ADMITTED, [Dispatcher(0, pc), Worker(0, worker)], NONE, jobs, {0})
  }

  lemma WorkerIsEarly()
    ensures Do(SHOP, Delivered(ADMITTED, [Dispatcher(0, MarkingDispatched)], NONE), Spawn(Worker(0, Starting)))
         == Racing(MarkingDispatched, Starting, {0})
    ensures Do(SHOP, Racing(MarkingDispatched, Starting, {0}), Act(1, Proceed))
         == Racing(MarkingDispatched, Finished, {})
    ensures Do(SHOP, Racing(MarkingDispatched, Finished, {}), Act(0, Proceed)) == DROPPED
  {
    Dispatches();
    assert StepActor(SHOP, ADMITTED, Worker(0, Starting), Proceed) == (ADMITTED, Worker(0, Finished));
    hide StepActor;
  }

  lemma DroppedIsReached()
    ensures After(SHOP, Boot(0, 0), TO_SENT + TO_DROPPED) == DROPPED
  {
    hide Do, Racing;
    SentIsReached();
    WorkerIsEarly();
    AfterStates(SHOP, TO_DROPPED,
                [Delivered(ADMITTED, [Dispatcher(0, MarkingDispatched)], NONE),
                 Racing(MarkingDispatched, Starting, {0}),
                 Racing(MarkingDispatched, Finished, {}), DROPPED]);
    AfterConcat(SHOP, Boot(0, 0), TO_SENT, TO_DROPPED);
  }

  /** A worker takes the job up before the dispatcher's last block commits: the run ends up QUEUED and
      nothing ever starts it. */
  lemma DroppedJobIsLost()
    ensures var s := After(SHOP, Boot(0, 0), TO_SENT + TO_DROPPED);
            HasStatus(s, 0, Queued) && !Delivery.Startable(SHOP, s, 0)
  {
    ShopIsValid();
    DroppedIsReached();
    AlwaysSafe(SHOP, 0, 0, TO_SENT + TO_DROPPED);
    hide SysOk, After;
    assert Unserved(DROPPED, 0);
    Delivery.StartableExactlyWhen(SHOP, DROPPED, 0);
  }
}
