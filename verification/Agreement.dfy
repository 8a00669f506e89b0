/** The actors of the concurrent system and the endpoints are the same code: an actor that moves on its own,
    with nobody in between, does what its endpoint or loop is said to do. */
module Agreement {
  import opened Tables
  import opened Pricing
  import opened Billing
  import opened RunBlocks
  import opened Machine
  import opened Endpoints
  import opened Dispatching
  import opened Reaping

  /** One actor's steps in a row. */
  function Alone(c: Catalog, db: DB, a: Actor, choices: seq<Choice>): (DB, Actor) {
    if |choices| == 0 then (db, a)
    else
      var before := Alone(c, db, a, choices[..|choices| - 1]);
      StepActor(c, before.0, before.1, choices[|choices| - 1])
  }

  lemma AloneThen(c: Catalog, db: DB, a: Actor, choices: seq<Choice>, choice: Choice)
    ensures Alone(c, db, a, []) == (db, a)
    ensures Alone(c, db, a, choices + [choice])
         == StepActor(c, Alone(c, db, a, choices).0, Alone(c, db, a, choices).1, choice)
  {
    assert (choices + [choice])[..|choices|] == choices;
  }

  const P: Choice := Proceed

  lemma TwoSteps(c: Catalog, db: DB, a: Actor)
    ensures Alone(c, db, a, [P, P]) == var one := StepActor(c, db, a, P); StepActor(c, one.0, one.1, P)
  {
    hide StepActor;
    AloneThen(c, db, a, [], P);
    AloneThen(c, db, a, [P], P);
    assert [] + [P] == [P] && [P] + [P] == [P, P];
  }

  /** cancel_run */
  lemma CancellerAgrees(c: Catalog, db: DB, run: nat, tenant: nat)
    ensures Alone(c, db, Canceller(run, tenant, Requesting), [P, P])
         == (CancelAlone(db, run, tenant), Canceller(run, tenant, CancelOver))
  {
    TwoSteps(c, db, Canceller(run, tenant, Requesting));
    hide RefundRun;
    assert RequestCancel(db, run, tenant).Committed? ==> RequestCancel(db, run, tenant).value.0.now == db.now;
  }

  lemma DispatcherSteps(c: Catalog, db: DB, run: nat, tried: Choice)
    requires tried == P || tried.Raise? || tried.Race?
    ensures StepActor(c, db, Dispatcher(run, Looking), P)
         == (db, Dispatcher(run, if FindPendingEvent(db, run).Some? then Enqueuing else DispatchOver))
    ensures StepActor(c, db, Dispatcher(run, Enqueuing), tried)
         == (db, Dispatcher(run, if tried == P then MarkingDispatched else NotingFailure))
    ensures StepActor(c, db, Dispatcher(run, MarkingDispatched), P)
         == (Dispatched(db, run), Dispatcher(run, DispatchOver))
    ensures StepActor(c, db, Dispatcher(run, NotingFailure), P)
         == (DispatchFailed(db, run), Dispatcher(run, DispatchOver))
    ensures StepActor(c, db, Dispatcher(run, DispatchOver), P) == (db, Dispatcher(run, DispatchOver))
    ensures StepActor(c, db, Dispatcher(run, DispatchOver), tried) == (db, Dispatcher(run, DispatchOver))
  {
    hide FindPendingEvent, Dispatched, DispatchFailed;
  }

  /** dispatch_run, whether the enqueue goes through, is refused, or raises after Redis took the job */
  lemma DispatcherAgrees(c: Catalog, db: DB, run: nat, tried: Choice)
    requires tried == P || tried.Raise? || tried.Race?
    ensures Alone(c, db, Dispatcher(run, Looking), [P, tried, P])
         == (DispatchOne(db, run, tried == P).0, Dispatcher(run, DispatchOver))
  {
    hide StepActor, FindPendingEvent, Dispatched, DispatchFailed;
    var a := Dispatcher(run, Looking);
    AloneThen(c, db, a, [], P);
    AloneThen(c, db, a, [P], tried);
    AloneThen(c, db, a, [P, tried], P);
    assert [] + [P] == [P] && [P] + [tried] == [P, tried] && [P, tried] + [P] == [P, tried, P];
    DispatcherSteps(c, db, run, tried);
  }

  // ----- the operator -----

  function Step(c: Catalog, next: (DB, Actor)): (DB, Actor) {
    StepActor(c, next.0, next.1, P)
  }

  lemma FourSteps(c: Catalog, db: DB, a: Actor)
    ensures Alone(c, db, a, [P, P, P, P]) == Step(c, Step(c, Step(c, Step(c, (db, a)))))
  {
    hide StepActor;
    TwoSteps(c, db, a);
    AloneThen(c, db, a, [P, P], P);
    AloneThen(c, db, a, [P, P, P], P);
    assert [P, P] + [P] == [P, P, P] && [P, P, P] + [P] == [P, P, P, P];
  }

  lemma OperatorRefuses(c: Catalog, db: DB, run: nat, action: Action)
    requires !Reconcilable(db, run) || (action.SettleIt? && (action.charge.None? || action.charge.value < 0))
    ensures Step(c, (db, Operator(run, action, Checking))) == (db, Operator(run, action, OperatorOver))
    ensures ReconcileAlone(db, run, action).0 == db
  {
    hide Reconcilable;
  }

  lemma OperatorCloses(c: Catalog, db: DB, run: nat, action: Action)
    requires run < |db.runs| && (action.SettleIt? ==> action.charge.Some?)
    ensures var closed := if action.RefundIt? then RefundRun(db.books, run, db.now)
                          else SettleRun(db.books, run, action.charge.value, db.now);
            var w := if action.RefundIt? then OperatorRefunded else OperatorSettled(action.charge.value);
            Step(c, Step(c, (db, Operator(run, action, ClosingReservation))))
            == (if closed.RolledBack? then db else Close(db.(books := closed.value), run, w),
                Operator(run, action, OperatorOver))
  {
    hide RefundRun, SettleRun, Close;
  }

  predicate TooMuch(db: DB, run: nat, action: Action) {
    var found := FindReservation(db.books, run);
    && found.Some? && action.SettleIt? && action.charge.Some?
    && action.charge.value > db.books.reservations[found.value].amount
  }

  lemma OperatorChecks(c: Catalog, db: DB, run: nat, action: Action)
    requires Reconcilable(db, run) && (action.SettleIt? ==> action.charge.Some? && action.charge.value >= 0)
    ensures action.RefundIt? ==>
              Step(c, (db, Operator(run, action, Checking))) == (db, Operator(run, action, ClosingReservation))
    ensures action.SettleIt? ==>
              && Step(c, (db, Operator(run, action, Checking))) == (db, Operator(run, action, CheckingAmount))
              && Step(c, (db, Operator(run, action, CheckingAmount)))
              == (db, Operator(run, action, if TooMuch(db, run, action) then OperatorOver else ClosingReservation))
    ensures TooMuch(db, run, action) ==> SettleRun(db.books, run, action.charge.value, db.now).RolledBack?
  {
    hide RefundRun;
  }

  /** _reconcile_run */
  lemma OperatorAgrees(c: Catalog, db: DB, run: nat, action: Action)
    ensures Alone(c, db, Operator(run, action, Checking), [P, P, P, P])
         == (ReconcileAlone(db, run, action).0, Operator(run, action, OperatorOver))
  {
    FourSteps(c, db, Operator(run, action, Checking));
    OperatorStaysOver(c, db, run, action);
    OperatorStaysOver(c, ReconcileAlone(db, run, action).0, run, action);
    if !Reconcilable(db, run) || (action.SettleIt? && (action.charge.None? || action.charge.value < 0)) {
      OperatorRefuses(c, db, run, action);
      hide Step, ReconcileAlone;
    } else {
      OperatorChecks(c, db, run, action);
      OperatorCloses(c, db, run, action);
      hide Step, RefundRun, SettleRun, Close, TooMuch, Reconcilable;
    }
  }

  lemma OperatorStaysOver(c: Catalog, db: DB, run: nat, action: Action)
    ensures Step(c, (db, Operator(run, action, OperatorOver))) == (db, Operator(run, action, OperatorOver))
  {
  }

  // ----- the reaper -----

  function Pass(queue: seq<nat>, n: nat): seq<Choice> {
    [Pick(queue)] + seq(2 * n, k => P)
  }

  lemma PassGrows(c: Catalog, db: DB, a: Actor, queue: seq<nat>, n: nat)
    ensures Alone(c, db, a, Pass(queue, 0)) == StepActor(c, db, a, Pick(queue))
    ensures Alone(c, db, a, Pass(queue, n + 1)) == Step(c, Step(c, Alone(c, db, a, Pass(queue, n))))
  {
    hide StepActor;
    AloneThen(c, db, a, [], Pick(queue));
    AloneThen(c, db, a, Pass(queue, n), P);
    AloneThen(c, db, a, Pass(queue, n) + [P], P);
    assert [] + [Pick(queue)] == Pass(queue, 0);
    assert Pass(queue, n) + [P] + [P] == Pass(queue, n + 1);
  }

  lemma ReaperTakesOne(c: Catalog, db: DB, queue: seq<nat>)
    requires queue != []
    ensures var raised := RefundRun(db.books, queue[0], db.now).RolledBack?;
            Step(c, Step(c, (db, Reaper(queue, RefundingHead))))
            == (if raised then db else ReapOne(db, queue[0]),
                if raised || |queue| == 1 then Reaper(if raised then [] else queue[1..], ReapOver)
                else Reaper(queue[1..], RefundingHead))
    ensures Step(c, Step(c, (db, Reaper([], ReapOver)))) == (db, Reaper([], ReapOver))
  {
    hide RefundRun, Expire;
  }

  /** The reaper after a pass over the first n runs of its queue. */
  function Reaped(queue: seq<nat>, n: nat, after: (DB, bool)): (DB, Actor)
    requires n <= |queue|
  {
    (after.0, if after.1 && n < |queue| then Reaper(queue[n..], RefundingHead) else Reaper([], ReapOver))
  }

  lemma ReaperSelects(c: Catalog, db: DB, queue: seq<nat>)
    requires ValidPick(db, queue) && queue != []
    ensures StepActor(c, db, Reaper([], Selecting), Pick(queue)) == Reaped(queue, 0, ReapAll(db, []))
  {
    hide ValidPick;
    assert queue[0..] == queue;
  }

  lemma ReaperMoves(c: Catalog, queue: seq<nat>, n: nat, before: (DB, bool), after: (DB, bool))
    requires n < |queue|
    requires after == if !before.1 || RefundRun(before.0.books, queue[n], before.0.now).RolledBack?
                      then (before.0, false)
                      else (ReapOne(before.0, queue[n]), true)
    ensures Step(c, Step(c, Reaped(queue, n, before))) == Reaped(queue, n + 1, after)
  {
    hide Step, ReapOne, RefundRun;
    ReaperTakesOne(c, before.0, queue[n..]);
    assert queue[n..][1..] == queue[n + 1..];
  }

  /** reservation_reaper: after its selection and the two blocks of each of its first n runs */
  lemma {:induction false} ReaperAgrees(c: Catalog, db: DB, queue: seq<nat>, n: nat)
    requires ValidPick(db, queue) && queue != [] && n <= |queue|
    ensures Alone(c, db, Reaper([], Selecting), Pass(queue, n)) == Reaped(queue, n, ReapAll(db, queue[..n]))
    decreases n
  {
    hide ValidPick, Step, StepActor, ReapOne, RefundRun, Reaped, Alone, Pass;
    if n == 0 {
      PassGrows(c, db, Reaper([], Selecting), queue, 0);
      ReaperSelects(c, db, queue);
      assert queue[..0] == [];
    } else {
      PassGrows(c, db, Reaper([], Selecting), queue, n - 1);
      ReaperAgrees(c, db, queue, n - 1);
      assert queue[..n][..n - 1] == queue[..n - 1];
      ReaperMoves(c, queue, n - 1, ReapAll(db, queue[..n - 1]), ReapAll(db, queue[..n]));
    }
  }
}
