/** Concrete traces from an empty database: a run is admitted, dispatched and executed, each point at
    which a crash matters is reached, and both kinds of transaction take a month's spend over its limit. */
module Witness {
  import opened Rows
  import opened Tables
  import opened Pricing
  import opened Billing
  import opened Marketplace
  import opened Admission
  import opened RunBlocks
  import opened Transactions
  import opened Consistency
  import opened Machine
  import opened Protocol
  import opened Reachability
  import opened Executor
  import opened Quota
  import opened Overrun

  const SHOP := Catalog(map["summary" := Skill("writer", true, {"pro"}, Fixed(5, 5))], map["writer" := ["summary"]],
                        100)

  // ----- a queued run -----

  const PAYMENT := PaymentEvent("evt", "checkout.session.completed", Some(0), 100, true)
  const CREDITED := LedgerRow(Entry(0, Credit, 100, PaymentEventRef("evt")), 0)
  const RESERVED := LedgerRow(Entry(0, Reserve, -5, ReservationRef(0)), 0)
  const HELD := Reservation(0, 0, 5, 0, Open, 0, 7200)
  const RUN := Run(0, "writer", Some("summary"), "{}", 5, 0, PendingDispatch, None, 0, false, None, None)
  const NOTHING := EmptyDB(0, 0)
  const TENANT := NOTHING.(books := EMPTY_BOOKS.(wallets := [Wallet(0, 0, 0)]))
  const PAID := TENANT.(books := TENANT.books.(wallets := [Wallet(100, 0, 1)], ledger := [CREDITED],
                                               payments := [PAYMENT]))
  const ADMITTED := PAID.(
                    books := PAID.books.(wallets := [Wallet(95, 5, 2)], ledger := [CREDITED, RESERVED],
                                         reservations := [HELD]),
                    runs := [RUN],
                    outbox := [OutboxEvent(0, false, 0, 0)])
  const QUEUED := ADMITTED.(runs := [RUN.(status := Queued)], outbox := [OutboxEvent(0, true, 0, 0)])

  const ADMISSION := AdmitSkill(0, "pro", "summary", "{}", None)

  lemma ShopIsValid()
    ensures ValidCatalog(SHOP)
  {
  }

  lemma Credits()
    ensures Apply(SHOP, NOTHING, CreateTenant) == TENANT
    ensures Apply(SHOP, TENANT, Deliver(PAYMENT)) == PAID
  {
    assert Post([], [CREDITED.entry], 0) == [CREDITED];
  }

  lemma Admits()
    ensures Apply(SHOP, PAID, ADMISSION) == ADMITTED
  {
    assert Post([CREDITED], [RESERVED.entry], 0) == [CREDITED, RESERVED];
    var q := Request(0, Fingerprint("writer", Some("summary"), "{}", 5), None);
    assert RequestOf(SHOP, ADMISSION) == Committed(q);
    assert AdmissionError(PAID, q) == None;
    assert Insert(PAID, q) == ADMITTED;
  }

  lemma Dispatches()
    ensures StepActor(SHOP, ADMITTED, Dispatcher(0, Looking), Proceed) == (ADMITTED, Dispatcher(0, Enqueuing))
    ensures StepActor(SHOP, ADMITTED, Dispatcher(0, MarkingDispatched), Proceed)
         == (QUEUED, Dispatcher(0, DispatchOver))
  {
    assert ADMITTED.outbox[0] == OutboxEvent(0, false, 0, 0);
    assert FindEvent(ADMITTED, 0) == Some(0);
    assert ADMITTED.outbox[0 := OutboxEvent(0, true, 0, 0)] == QUEUED.outbox;
    assert ADMITTED.runs[0 := RUN.(status := Queued)] == QUEUED.runs;
  }

  const NONE: multiset<(nat, nat)> := multiset{}
  const ONE: multiset<(nat, nat)> := multiset{(0, 1)}

  /** Before and after the run's job reaches Redis. */
  function Quiet(db: DB, actors: seq<Actor>): Sys {
    Sys(db, actors, NONE, {}, {})
  }

  function Delivered(db: DB, actors: seq<Actor>, calls: multiset<(nat, nat)>): Sys {
    Sys(db, actors, calls, {0}, {0})
  }

  const DISPATCHED := Delivered(QUEUED, [Dispatcher(0, DispatchOver)], NONE)

  /** A trace by its states. */
  lemma {:induction false} AfterStates(c: Catalog, events: seq<Event>, states: seq<Sys>)
    requires |states| == |events| + 1
    requires forall i :: 0 <= i < |events| ==> states[i + 1] == Do(c, states[i], events[i])
    ensures After(c, states[0], events) == states[|events|]
    decreases |events|
  {
    hide Do;
    if |events| > 0 {
      AfterStates(c, events[..|events| - 1], states[..|events|]);
    }
  }

  lemma {:induction false} AfterConcat(c: Catalog, s: Sys, a: seq<Event>, b: seq<Event>)
    ensures After(c, s, a + b) == After(c, After(c, s, a), b)
    decreases |b|
  {
    hide Do;
    if |b| == 0 {
      assert a + b == a;
    } else {
      assert (a + b)[..|a| + |b| - 1] == a + b[..|b| - 1];
      AfterConcat(c, s, a, b[..|b| - 1]);
    }
  }

  lemma ClientSteps()
    ensures Do(SHOP, Boot(0, 0), Client(CreateTenant)) == Quiet(TENANT, [])
    ensures Do(SHOP, Quiet(TENANT, []), Client(Deliver(PAYMENT))) == Quiet(PAID, [])
    ensures Do(SHOP, Quiet(PAID, []), Client(ADMISSION)) == Quiet(ADMITTED, [])
  {
    Credits();
    Admits();
    hide Apply;
  }

  lemma DispatcherSteps()
    ensures Do(SHOP, Quiet(ADMITTED, []), Spawn(Dispatcher(0, Looking))) == Quiet(ADMITTED, [Dispatcher(0, Looking)])
    ensures Do(SHOP, Quiet(ADMITTED, [Dispatcher(0, Looking)]), Act(0, Proceed))
         == Quiet(ADMITTED, [Dispatcher(0, Enqueuing)])
    ensures Do(SHOP, Quiet(ADMITTED, [Dispatcher(0, Enqueuing)]), Act(0, Proceed))
         == Delivered(ADMITTED, [Dispatcher(0, MarkingDispatched)], NONE)
    ensures Do(SHOP, Delivered(ADMITTED, [Dispatcher(0, MarkingDispatched)], NONE), Act(0, Proceed)) == DISPATCHED
  {
    Dispatches();
    hide Apply;
  }

  const TO_SENT: seq<Event> :=
    [Client(CreateTenant), Client(Deliver(PAYMENT)), Client(ADMISSION), Spawn(Dispatcher(0, Looking)),
     Act(0, Proceed), Act(0, Proceed)]

  lemma SentIsReached()
    ensures After(SHOP, Boot(0, 0), TO_SENT) == Delivered(ADMITTED, [Dispatcher(0, MarkingDispatched)], NONE)
  {
    hide Do;
    ClientSteps();
    DispatcherSteps();
    AfterStates(SHOP, TO_SENT,
                [Boot(0, 0), Quiet(TENANT, []), Quiet(PAID, []), Quiet(ADMITTED, []),
                 Quiet(ADMITTED, [Dispatcher(0, Looking)]), Quiet(ADMITTED, [Dispatcher(0, Enqueuing)]),
                 Delivered(ADMITTED, [Dispatcher(0, MarkingDispatched)], NONE)]);
  }

  const TO_QUEUED: seq<Event> := TO_SENT + [Act(0, Proceed)]

  lemma QueuedIsReached()
    ensures After(SHOP, Boot(0, 0), TO_QUEUED) == DISPATCHED
  {
    hide Do;
    SentIsReached();
    DispatcherSteps();
    assert TO_QUEUED[..|TO_SENT|] == TO_SENT;
  }

  // ----- its execution -----

  const ANSWER := Answer("text", "resp", 10, 20)
  const STARTED := QUEUED.(runs := [RUN.(status := Running, startedAt := Some(0))])
  const WAITING := STARTED.(executions := map[(0, 1) := InFlight("summary")])
  const RECORDED := STARTED.(executions := map[(0, 1) := Completed("summary", ANSWER, 5)])
  const DONE := Local(1, 5, 10, 20, [Step("summary", "text", "resp", 5)])

  lemma Starts(provider: nat -> Response)
    ensures Stepped(SHOP, QUEUED, 0, Starting, provider) == (STARTED, Looping(NOTHING_DONE))
    ensures Stepped(SHOP, STARTED, 0, Looping(NOTHING_DONE), provider) == (STARTED, Preparing(NOTHING_DONE))
  {
    assert STARTED.runs == QUEUED.runs[0 := STARTED.runs[0]];
  }

  lemma Inserts(provider: nat -> Response)
    ensures Stepped(SHOP, STARTED, 0, Preparing(NOTHING_DONE), provider) == (WAITING, Calling(NOTHING_DONE))
  {
    assert SkillAt(SHOP, STARTED.runs[0], 0) == Some("summary");
    assert map[][(0, 1) := InFlight("summary")] == WAITING.executions;
  }

  lemma Answers(provider: nat -> Response)
    requires provider(0) == Answered(ANSWER)
    ensures Stepped(SHOP, WAITING, 0, Calling(NOTHING_DONE), provider) == (WAITING, Recording(NOTHING_DONE, ANSWER))
    ensures Stepped(SHOP, WAITING, 0, Recording(NOTHING_DONE, ANSWER), provider) == (RECORDED, Looping(DONE))
    ensures Stepped(SHOP, RECORDED, 0, Looping(DONE), provider) == (RECORDED, Settling(DONE, WorkflowDone))
  {
    assert SkillAt(SHOP, STARTED.runs[0], 0) == Some("summary");
    assert ChargeFor(SHOP, STARTED.runs[0], 0, ANSWER) == 5;
    assert WAITING.executions[(0, 1) := Completed("summary", ANSWER, 5)] == RECORDED.executions;
    assert DONE.steps == NOTHING_DONE.steps + [Step("summary", "text", "resp", 5)];
  }

  lemma Settles(provider: nat -> Response)
    ensures Stepped(SHOP, RECORDED, 0, Settling(DONE, WorkflowDone), provider).1 == Concluding(DONE, WorkflowDone)
  {
    assert RECORDED.books.reservations[0].run == 0;
  }

  lemma Errs(provider: nat -> Response)
    requires provider(0) == Errored("timeout")
    ensures Stepped(SHOP, WAITING, 0, Calling(NOTHING_DONE), provider) == (WAITING, Failing("timeout"))
    ensures var next := Stepped(SHOP, WAITING, 0, Failing("timeout"), provider);
            next.1 == MarkingFailed("timeout") && next.0.executions == WAITING.executions
    ensures HasInFlight(WAITING, 0)
  {
    assert WAITING.books.reservations[0].run == 0;
    assert (0, 1) in WAITING.executions;
  }

  const ANSWERING: nat -> Response := _ => Answered(ANSWER)
  const ERRING: nat -> Response := _ => Errored("timeout")

  lemma TwoSteps(provider: nat -> Response)
    ensures SoloSteps(SHOP, QUEUED, 0, provider, 3) == (WAITING, Calling(NOTHING_DONE))
  {
    Starts(provider);
    Inserts(provider);
    hide Stepped;
    assert SoloSteps(SHOP, QUEUED, 0, provider, 0) == (QUEUED, Starting);
    assert SoloSteps(SHOP, QUEUED, 0, provider, 1) == (STARTED, Looping(NOTHING_DONE));
    assert SoloSteps(SHOP, QUEUED, 0, provider, 2) == (STARTED, Preparing(NOTHING_DONE));
  }

  /** Every point at which a crash matters is reached by a run of a reachable database. */
  lemma EachWindowIsReached()
    ensures ValidCatalog(SHOP)
    ensures var db := After(SHOP, Boot(0, 0), TO_QUEUED).db;
            && Consistent(db) && RunsOk(SHOP, db)
            && SoloSteps(SHOP, db, 0, ANSWERING, 3).1.Calling?
            && SoloSteps(SHOP, db, 0, ANSWERING, 4).1.Recording?
            && SoloSteps(SHOP, db, 0, ANSWERING, 7).1.Concluding?
            && SoloSteps(SHOP, db, 0, ERRING, 4).1.Failing? && HasInFlight(SoloSteps(SHOP, db, 0, ERRING, 4).0, 0)
            && SoloSteps(SHOP, db, 0, ERRING, 5).1.MarkingFailed? && HasInFlight(SoloSteps(SHOP, db, 0, ERRING, 5).0, 0)
  {
    ShopIsValid();
    QueuedIsReached();
    AlwaysSafe(SHOP, 0, 0, TO_QUEUED);
    TwoSteps(ANSWERING);
    TwoSteps(ERRING);
    Answers(ANSWERING);
    Settles(ANSWERING);
    Errs(ERRING);
    hide Stepped, Consistent, RunsOk, ActorsOk, CallsOk, ClaimsDiffer, After, HasInFlight, ValidCatalog;
    assert SoloSteps(SHOP, QUEUED, 0, ANSWERING, 4) == (WAITING, Recording(NOTHING_DONE, ANSWER));
    assert SoloSteps(SHOP, QUEUED, 0, ANSWERING, 5) == (RECORDED, Looping(DONE));
    assert SoloSteps(SHOP, QUEUED, 0, ANSWERING, 6) == (RECORDED, Settling(DONE, WorkflowDone));
    assert SoloSteps(SHOP, QUEUED, 0, ERRING, 4) == (WAITING, Failing("timeout"));
    SameInFlightAfter(Stepped(SHOP, WAITING, 0, Failing("timeout"), ERRING).0);
  }

  lemma SameInFlightAfter(db: DB)
    requires db.executions == WAITING.executions
    ensures HasInFlight(db, 0)
  {
    assert (0, 1) in db.executions;
  }

  // ----- a month's spend over its limit -----

  const CAP := Control(Some(3), None, {}, {}, 30, 1)
  const SET_CAP := SetControl(0, CAP)

  /** One tenant with credits and a limit of 3, another that sells for 5. */
  const PAIR := NOTHING.(books := EMPTY_BOOKS.(wallets := [Wallet(0, 0, 0), Wallet(0, 0, 0)]))
  const FUNDED := NOTHING.(books := EMPTY_BOOKS.(
                           wallets := [Wallet(100, 0, 1),
                                       Wallet(0, 0, 0)], ledger := [CREDITED], payments := [PAYMENT]))
  const SELLING := FUNDED.(books := FUNDED.books.(publishers := [Publisher(1)]))
  const LISTED := SELLING.(versions := [SkillVersion(0, true)], listings := [Listing(0, 5, 8000, true)])
  const CAPPED := LISTED.(controls := map[0 := CAP])
  const TO_CAPPED: seq<Txn> :=
    [CreateTenant, CreateTenant, Deliver(PAYMENT), RegisterPublisher(1), Publish(1), List(1, 0, 5, 8000), SET_CAP]

  lemma {:induction false} ReplayedStates(c: Catalog, history: seq<Txn>, states: seq<DB>)
    requires |states| == |history| + 1
    requires forall i :: 0 <= i < |history| ==> states[i + 1] == Apply(c, states[i], history[i])
    ensures Replayed(c, states[0], history) == states[|history|]
    decreases |history|
  {
    hide Apply;
    if |history| > 0 {
      ReplayedStates(c, history[..|history| - 1], states[..|history|]);
    }
  }

  lemma Funds()
    ensures Apply(SHOP, TENANT, CreateTenant) == PAIR
    ensures Apply(SHOP, PAIR, Deliver(PAYMENT)) == FUNDED
  {
    assert Post([], [CREDITED.entry], 0) == [CREDITED];
    assert PAIR.books.wallets[0 := Wallet(100, 0, 1)] == FUNDED.books.wallets;
  }

  lemma Lists()
    ensures Apply(SHOP, FUNDED, RegisterPublisher(1)) == SELLING
    ensures Apply(SHOP, SELLING, Publish(1)) == SELLING.(versions := LISTED.versions)
    ensures Apply(SHOP, SELLING.(versions := LISTED.versions), List(1, 0, 5, 8000)) == LISTED
    ensures Apply(SHOP, LISTED, SET_CAP) == CAPPED
  {
    assert SELLING.books.publishers[0].tenant == 1;
    assert FindPublisher(SELLING.books, 1) == Some(0);
    assert map[][0 := CAP] == CAPPED.controls;
  }

  lemma CappedIsReached()
    ensures Replayed(SHOP, NOTHING, TO_CAPPED) == CAPPED && Consistent(CAPPED)
  {
    Credits();
    Funds();
    Lists();
    hide Apply, Consistent;
    ReplayedStates(SHOP, TO_CAPPED, [NOTHING, TENANT, PAIR, FUNDED, SELLING, SELLING.(versions := LISTED.versions),
                                     LISTED, CAPPED]);
    EmptyIsConsistent(0, 0);
    HistoryKeeps(SHOP, NOTHING, TO_CAPPED);
  }

  lemma Buys()
    ensures Bought(CAPPED, Buy(0, 0, "key"), 0) == Some(5) && MonthSpend(CAPPED, 0) == 0
  {
    assert CAPPED.listings[0].active && CAPPED.versions[0].active && CAPPED.books.publishers[0].tenant == 1;
    assert FindSale(CAPPED.books, 0, "key") == None;
    assert CAPPED.books.ledger == [] + [CREDITED];
    SumAppend([], CREDITED, SpentSince(0, 0));
  }

  /** A purchase takes the month's spend from nothing over the limit. */
  lemma PurchaseOverruns()
    ensures var db := Replayed(SHOP, NOTHING, TO_CAPPED);
            && Consistent(db) && Limited(db, 0, 3) && MonthSpend(db, 0) <= 3
            && MonthSpend(Apply(SHOP, db, Buy(0, 0, "key")), 0) > 3
  {
    CappedIsReached();
    Buys();
    assert Limited(CAPPED, 0, 3);
    hide Apply, Consistent, MonthSpend, Bought, Replayed;
    OverrunsExactlyWhen(SHOP, CAPPED, Buy(0, 0, "key"), 0, 3);
  }

  const OVERDUE := RECORDED.(now := 10, monthStart := 10, controls := map[0 := CAP])
  const NEXT_MONTH := RECORDED.(now := 10, monthStart := 10)
  const TO_OVERDUE: seq<Event> :=
    [Spawn(Worker(0, Starting)), Act(1, Proceed), Act(1, Proceed), Act(1, Proceed), Act(1, Reply(ANSWER)),
     Act(1, Proceed),
     Act(1, Proceed), Client(Tick(10, 10)), Client(SET_CAP)]

  function With(db: DB, pc: Pc, calls: multiset<(nat, nat)>): Sys {
    Delivered(db, [Dispatcher(0, DispatchOver), Worker(0, pc)], calls)
  }

  lemma WorkerMoves(db: DB, pc: Pc, next: (DB, Pc), choice: Choice,
                    calls: multiset<(nat, nat)>, after: multiset<(nat, nat)>)
    requires after == calls + if pc.Calling? then multiset{(0, pc.at.k + 1)} else multiset{}
    requires Stepped(SHOP, db, 0, pc, ANSWERING) == next && choice == ChoiceAt(pc, ANSWERING)
    requires !Over(pc) && !Over(next.1)
    ensures Do(SHOP, With(db, pc, calls), Act(1, choice)) == With(next.0, next.1, after)
  {
    hide StepWorker;
  }

  lemma MonthTurns()
    ensures Apply(SHOP, RECORDED, Tick(10, 10)) == NEXT_MONTH && Apply(SHOP, NEXT_MONTH, SET_CAP) == OVERDUE
  {
    assert map[][0 := CAP] == OVERDUE.controls;
  }

  const SETTLING := Settling(DONE, WorkflowDone)

  lemma FirstMoves()
    ensures Do(SHOP, With(QUEUED, Starting, NONE), Act(1, Proceed)) == With(STARTED, Looping(NOTHING_DONE), NONE)
    ensures Do(SHOP, With(STARTED, Looping(NOTHING_DONE), NONE), Act(1, Proceed))
         == With(STARTED, Preparing(NOTHING_DONE), NONE)
    ensures Do(SHOP, With(STARTED, Preparing(NOTHING_DONE), NONE), Act(1, Proceed))
         == With(WAITING, Calling(NOTHING_DONE), NONE)
  {
    hide Stepped, Do, With;
    Starts(ANSWERING);
    Inserts(ANSWERING);
    WorkerMoves(QUEUED, Starting, (STARTED, Looping(NOTHING_DONE)), Proceed, NONE, NONE);
    WorkerMoves(STARTED, Looping(NOTHING_DONE), (STARTED, Preparing(NOTHING_DONE)), Proceed, NONE, NONE);
    WorkerMoves(STARTED, Preparing(NOTHING_DONE), (WAITING, Calling(NOTHING_DONE)), Proceed, NONE, NONE);
  }

  lemma LastMoves()
    ensures Do(SHOP, With(WAITING, Calling(NOTHING_DONE), NONE), Act(1, Reply(ANSWER)))
         == With(WAITING, Recording(NOTHING_DONE, ANSWER), ONE)
    ensures Do(SHOP, With(WAITING, Recording(NOTHING_DONE, ANSWER), ONE), Act(1, Proceed))
         == With(RECORDED, Looping(DONE), ONE)
    ensures Do(SHOP, With(RECORDED, Looping(DONE), ONE), Act(1, Proceed)) == With(RECORDED, SETTLING, ONE)
  {
    hide Stepped, Do, With;
    Answers(ANSWERING);
    WorkerMoves(WAITING, Calling(NOTHING_DONE), (WAITING, Recording(NOTHING_DONE, ANSWER)), Reply(ANSWER), NONE, ONE);
    WorkerMoves(WAITING, Recording(NOTHING_DONE, ANSWER), (RECORDED, Looping(DONE)), Proceed, ONE, ONE);
    WorkerMoves(RECORDED, Looping(DONE), (RECORDED, SETTLING), Proceed, ONE, ONE);
  }

  lemma OtherMoves()
    ensures Do(SHOP, DISPATCHED, Spawn(Worker(0, Starting))) == With(QUEUED, Starting, NONE)
    ensures Do(SHOP, With(RECORDED, SETTLING, ONE), Client(Tick(10, 10))) == With(NEXT_MONTH, SETTLING, ONE)
    ensures Do(SHOP, With(NEXT_MONTH, SETTLING, ONE), Client(SET_CAP)) == With(OVERDUE, SETTLING, ONE)
  {
    MonthTurns();
    hide Apply;
  }

  lemma OverdueIsReached()
    ensures After(SHOP, Boot(0, 0), TO_QUEUED + TO_OVERDUE) == With(OVERDUE, SETTLING, ONE)
  {
    hide Do, With;
    FirstMoves();
    LastMoves();
    OtherMoves();
    AfterStates(SHOP, TO_OVERDUE,
                [DISPATCHED, With(QUEUED, Starting, NONE), With(STARTED, Looping(NOTHING_DONE), NONE),
                 With(STARTED, Preparing(NOTHING_DONE), NONE), With(WAITING, Calling(NOTHING_DONE), NONE),
                 With(WAITING, Recording(NOTHING_DONE, ANSWER), ONE), With(RECORDED, Looping(DONE), ONE),
                 With(RECORDED, SETTLING, ONE), With(NEXT_MONTH, SETTLING, ONE), With(OVERDUE, SETTLING, ONE)]);
    QueuedIsReached();
    AfterConcat(SHOP, Boot(0, 0), TO_QUEUED, TO_OVERDUE);
  }

  lemma OverdueIsConsistent()
    ensures Consistent(OVERDUE)
  {
    ShopIsValid();
    OverdueIsReached();
    hide Consistent, After, RunsOk, ActorsOk, CallsOk, ClaimsDiffer, ValidCatalog;
    AlwaysSafe(SHOP, 0, 0, TO_QUEUED + TO_OVERDUE);
    assert With(OVERDUE, SETTLING, ONE).db == OVERDUE;
  }

  lemma CarriesOver()
    ensures CarriedOver(OVERDUE, SettleTxn(0, 5), 0) == Some(5) && MonthSpend(OVERDUE, 0) == 0
  {
    assert OVERDUE.books.reservations[0] == HELD;
    assert FindReservation(OVERDUE.books, 0) == Some(0);
    assert OVERDUE.books.ledger == [CREDITED] + [RESERVED] && [CREDITED] == [] + [CREDITED];
    SumAppend([CREDITED], RESERVED, SpentSince(0, 10));
    SumAppend([], CREDITED, SpentSince(0, 10));
    assert OVERDUE.books.reservations == [] + [HELD];
    SumAppend([], HELD, OpenSince(0, 10));
  }

  /** A run admitted last month settles this month: its worker's ordinary settlement takes the
      spend from nothing over the limit, without any purchase. */
  lemma CarriedChargeOverruns()
    ensures var s := After(SHOP, Boot(0, 0), TO_QUEUED + TO_OVERDUE);
            && Limited(s.db, 0, 3) && MonthSpend(s.db, 0) <= 3
            && MonthSpend(Do(SHOP, s, Act(1, Proceed)).db, 0) > 3
  {
    hide Apply, Consistent, MonthSpend, CarriedOver, After;
    OverdueIsReached();
    OverdueIsConsistent();
    CarriesOver();
    assert Do(SHOP, With(OVERDUE, SETTLING, ONE), Act(1, Proceed)).db == Apply(SHOP, OVERDUE, SettleTxn(0, 5));
    hide Do;
    assert Limited(OVERDUE, 0, 3);
    OverrunsExactlyWhen(SHOP, OVERDUE, SettleTxn(0, 5), 0, 3);
  }
}
