/** The locks each block takes, in order, and exactly when a set of blocks can deadlock: when one of them
    waits for itself. */
module Locks {
  import opened Rows
  import opened Tables
  import opened Pricing
  import opened Billing
  import opened Marketplace
  import opened Admission
  import opened RunBlocks
  import opened Transactions
  import opened Machine

  /** Row locks and transaction-scoped advisory locks; different advisory keys are taken not to collide. */
  datatype Lock =
    | PaymentLock(event: string)            // the unique provider_event_id being inserted
    | KeyLock(tenant: nat, key: string)
    | QuotaLock(tenant: nat, month: nat)
    | PurchaseLock(tenant: nat, key: string)
    | OutboxLock(run: nat)
    | ExecutionLock(run: nat, sequenceNo: nat)
    | RunLock(run: nat)
    | ReservationLock(reservation: nat)
    | WalletLock(tenant: nat)
    | GrantLock(tenant: nat, version: nat)  // the unique (tenant, skill version) being inserted

  /** PostgreSQL's row-level modes: a foreign key to a row needs KEY SHARE, an UPDATE that leaves the key
      alone NO KEY UPDATE. Locks on anything but rows are exclusive. */
  datatype Mode = KeyShare | NoKeyUpdate | ForUpdate

  predicate Conflict(m: Mode, n: Mode) {
    m.ForUpdate? || n.ForUpdate? || (m.NoKeyUpdate? && n.NoKeyUpdate?)
  }

  /** A lock that a block asks for. A nested one is taken and given back by a second session, which the
      block opens and waits for while it keeps its own locks. */
  datatype Want = Want(lock: Lock, mode: Mode, nested: bool)

  predicate Clash(a: Want, b: Want) {
    a.lock == b.lock && Conflict(a.mode, b.mode)
  }

  function Own(l: Lock): Want {
    Want(l, ForUpdate, false)
  }

  function Writes(run: nat): Want {
    Want(RunLock(run), NoKeyUpdate, false)
  }

  function Refers(run: nat): Want {
    Want(RunLock(run), KeyShare, false)
  }

  function Rank(l: Lock): (nat, nat) {
    match l
    case PaymentLock(_) => (0, 0)
    case KeyLock(_, _) => (1, 0)
    case QuotaLock(_, _) => (2, 0)
    case PurchaseLock(_, _) => (3, 0)
    case OutboxLock(_) => (4, 0)
    case ExecutionLock(_, _) => (5, 0)
    case RunLock(_) => (6, 0)
    case ReservationLock(_) => (7, 0)
    case WalletLock(t) => (8, t)
    case GrantLock(_, _) => (9, 0)
  }

  predicate Before(a: Lock, b: Lock) {
    Rank(a).0 < Rank(b).0 || (Rank(a).0 == Rank(b).0 && Rank(a).1 < Rank(b).1)
  }

  /** plan[j] is asked for by a second session while the block holds plan[i], with which it clashes. */
  predicate Tangled(plan: seq<Want>, i: nat, j: nat) {
    i < j < |plan| && !plan[i].nested && plan[j].nested && Clash(plan[i], plan[j])
  }

  ghost predicate SelfWaiting(plan: seq<Want>) {
    exists i, j :: Tangled(plan, i, j)
  }

  /** What a block holds comes before whatever it asks for next, unless it waits for itself. */
  predicate Ordered(plan: seq<Want>) {
    forall i, j :: 0 <= i < j < |plan| && !plan[i].nested ==> Before(plan[i].lock, plan[j].lock) || Tangled(plan, i, j)
  }

  // ----- what each block locks -----

  function WalletIfAny(b: Books, t: nat): seq<Want> {
    if t < |b.wallets| then [Own(WalletLock(t))] else []
  }

  /** settle_run and refund_run: the reservation, then its tenant's wallet if it is open. */
  function ClosingPlan(b: Books, run: nat, proceeds: Reservation -> bool): seq<Want> {
    var found := FindReservation(b, run);
    if found.None? then []
    else
      var r := b.reservations[found.value];
      [Own(ReservationLock(found.value))] + if proceeds(r) then WalletIfAny(b, r.tenant) else []
  }

  function AdmissionPlan(db: DB, q: Request): seq<Want> {
    var keyed := if Keyed(q) then [Own(KeyLock(q.tenant, q.key.value))] else [];
    if Keyed(q) && (q.tenant, q.key.value) in db.idempotency then keyed
    else
      keyed + [Own(QuotaLock(q.tenant, db.monthStart))]
      + if AdmissionError(db, q).None? then WalletIfAny(db.books, q.tenant) else []
  }

  /** `SELECT ... WHERE tenant_id IN (...) ORDER BY tenant_id FOR UPDATE` */
  function TwoWallets(b: Books, t: nat, u: nat): seq<Want> {
    if t < u then WalletIfAny(b, t) + WalletIfAny(b, u) else WalletIfAny(b, u) + WalletIfAny(b, t)
  }

  function PurchasePlan(db: DB, buyer: nat, listing: nat, key: string): seq<Want> {
    if |key| == 0 || |key| > 200 then []
    else
      [Own(PurchaseLock(buyer, key))]
      + if FindSale(db.books, buyer, key).Some? || listing >= |db.listings| || !db.listings[listing].active then []
        else
          var v := db.listings[listing].version;
          if v >= |db.versions| || !db.versions[v].active || db.versions[v].publisher >= |db.books.publishers| then []
          else
            var seller := db.books.publishers[db.versions[v].publisher].tenant;
            if seller == buyer then []
            else
              TwoWallets(db.books, buyer, seller)
              + if PurchaseListing(db, buyer, listing, key).Committed? then [Own(GrantLock(buyer, v))] else []
  }

  function PaymentPlan(b: Books, p: PaymentEvent): seq<Want> {
    [Own(PaymentLock(p.id))]
    + if FindPayment(b.payments, p.id).None? && p.verified && p.tenant.Some? && p.credits > 0
      then WalletIfAny(b, p.tenant.value) else []
  }

  function OutboxIfAny(db: DB, run: nat): seq<Want> {
    if FindEvent(db, run).Some? then [Own(OutboxLock(run))] else []
  }

  /** The opening block of a run that is RUNNING with a RUNNING checkpoint: before it commits, evidence
      is written through a second session. */
  predicate Hangs(db: DB, run: nat) {
    run < |db.runs| && db.runs[run].status == Running && HasInFlight(db, run)
  }

  function BeginPlan(db: DB, run: nat): seq<Want> {
    if run >= |db.runs| then []
    else [Own(RunLock(run))] + if Hangs(db, run) then [Refers(run).(nested := true)] else []
  }

  /** _prepare_execution: the unique key, then the foreign key of the inserted row. */
  function PreparePlan(db: DB, run: nat, k: nat, skill: string): seq<Want> {
    if (run, k) in db.executions then []
    else [Own(ExecutionLock(run, k))] + if Prepare(db, run, k, skill, false).1.Fresh? then [Refers(run)] else []
  }

  function WritesIf(db: DB, run: nat, statuses: set<RunStatus>): seq<Want> {
    if run < |db.runs| && db.runs[run].status in statuses then [Writes(run)] else []
  }

  /** What a transaction asks for, in order, when this is the database it reads. */
  function Plan(c: Catalog, db: DB, txn: Txn): seq<Want> {
    match txn
    case Deliver(p) => PaymentPlan(db.books, p)
    case AdmitAgent(_, _, _, _, _) =>
      if RequestOf(c, txn).Committed? then AdmissionPlan(db, RequestOf(c, txn).value) else []
    case AdmitSkill(_, _, _, _, _) =>
      if RequestOf(c, txn).Committed? then AdmissionPlan(db, RequestOf(c, txn).value) else []
    case Buy(buyer, listing, key) => PurchasePlan(db, buyer, listing, key)
    case BeginRun(run) => BeginPlan(db, run)
    case PrepareStep(run, k, skill) => PreparePlan(db, run, k, skill)
    case RecordStep(run, k, _, _) => if (run, k) in db.executions then [Own(ExecutionLock(run, k))] else []
    case SettleTxn(run, charge) =>
      ClosingPlan(db.books, run, (r: Reservation) => r.status == Open && 0 <= charge <= r.amount)
    case RefundTxn(run) => ClosingPlan(db.books, run, (r: Reservation) => r.status == Open)
    case CloseTxn(run, _) => if run < |db.runs| then [Writes(run)] else []
    case CancelTxn(run, t) => if run < |db.runs| && db.runs[run].tenant == t then [Own(RunLock(run))] else []
    case ExpireTxn(run) => WritesIf(db, run, {PendingDispatch, Queued})
    case DispatchFailedTxn(run) => OutboxIfAny(db, run)
    case DispatchedTxn(run) =>
      OutboxIfAny(db, run) + if FindEvent(db, run).Some? then WritesIf(db, run, {PendingDispatch}) else []
    case _ => []
  }

  /** A transaction, or a block without one in `Txn`: reconcile_wallet, dispatch_run's first block, which
      locks the pending event it finds, and an evidence row, which refers to its run. */
  datatype Block =
    | Transaction(txn: Txn)
    | WalletCheck(tenant: nat)
    | EventLook(run: nat)
    | EvidenceRow(run: nat)

  function PlanOf(c: Catalog, db: DB, block: Block): seq<Want> {
    match block
    case Transaction(txn) => Plan(c, db, txn)
    case WalletCheck(t) => WalletIfAny(db.books, t)
    case EventLook(run) => if FindPendingEvent(db, run).Some? then [Own(OutboxLock(run))] else []
    case EvidenceRow(run) => [Refers(run)]
  }

  lemma AdmissionIsOrdered(db: DB, q: Request)
    ensures Ordered(AdmissionPlan(db, q))
  {
    hide AdmissionError;
  }

  lemma PurchaseIsOrdered(db: DB, buyer: nat, listing: nat, key: string)
    ensures Ordered(PurchasePlan(db, buyer, listing, key))
  {
    hide PurchaseListing, FindSale;
  }

  lemma ClosingIsOrdered(b: Books, run: nat, proceeds: Reservation -> bool)
    ensures Ordered(ClosingPlan(b, run, proceeds))
  {
    hide FindReservation;
  }

  lemma TransactionsAreOrdered(c: Catalog, db: DB, txn: Txn)
    ensures Ordered(Plan(c, db, txn))
  {
    hide AdmissionPlan, PurchasePlan, ClosingPlan, RequestOf, HasInFlight, Prepare, FindEvent, FindPayment;
    match txn
    case AdmitAgent(_, _, _, _, _) =>
      if RequestOf(c, txn).Committed? { AdmissionIsOrdered(db, RequestOf(c, txn).value); }
    case AdmitSkill(_, _, _, _, _) =>
      if RequestOf(c, txn).Committed? { AdmissionIsOrdered(db, RequestOf(c, txn).value); }
    case Buy(buyer, listing, key) => PurchaseIsOrdered(db, buyer, listing, key);
    case SettleTxn(run, charge) =>
      ClosingIsOrdered(db.books, run, (r: Reservation) => r.status == Open && 0 <= charge <= r.amount);
    case RefundTxn(run) => ClosingIsOrdered(db.books, run, (r: Reservation) => r.status == Open);
    case _ =>
  }

  /** Every block takes its locks in strictly increasing rank, but for a lock it already holds itself. */
  lemma PlansAreOrdered(c: Catalog, db: DB, block: Block)
    ensures Ordered(PlanOf(c, db, block))
  {
    hide Plan;
    if block.Transaction? {
      TransactionsAreOrdered(c, db, block.txn);
    }
  }

  lemma OnlyBeginNests(c: Catalog, db: DB, txn: Txn)
    ensures !txn.BeginRun? ==> forall w :: w in Plan(c, db, txn) ==> !w.nested
  {
    hide AdmissionError, PurchaseListing, RequestOf, FindSale, HasInFlight, Prepare;
  }

  ghost predicate HangingBlock(db: DB, block: Block) {
    block.Transaction? && block.txn.BeginRun? && Hangs(db, block.txn.run)
  }

  /** A block waits for itself if and only if it is the opening block of a RUNNING run with a RUNNING
      checkpoint, which is when the model's block does not commit. */
  lemma SelfWaitingExactlyWhen(c: Catalog, db: DB, block: Block)
    ensures SelfWaiting(PlanOf(c, db, block)) <==> HangingBlock(db, block)
    ensures HangingBlock(db, block) <==>
            block.Transaction? && block.txn.BeginRun? && Begin(db, block.txn.run) == RolledBack(WaitsForItself)
  {
    hide HasInFlight;
    if block.Transaction? {
      if block.txn.BeginRun? {
        var plan := BeginPlan(db, block.txn.run);
        if Hangs(db, block.txn.run) {
          assert Tangled(plan, 0, 1);
        }
      } else {
        hide Plan;
        OnlyBeginNests(c, db, block.txn);
      }
    }
  }

  ghost predicate AsksFor(plan: seq<Want>, l: Lock) {
    exists i :: 0 <= i < |plan| && plan[i].lock == l && !plan[i].nested
  }

  lemma WorkerRowIsWanted(c: Catalog, db: DB, r: nat, pc: Pc, choice: Choice, run: nat)
    requires run < |db.runs| && db.runs[run].status == Running && !choice.Raise?
    ensures var plan := Plan(c, db, WorkerTxn(c, db, r, pc));
            Row(c, db, Worker(r, pc), choice) == Some(run) <==> AsksFor(plan, RunLock(run))
  {
    hide HasInFlight, AdmissionPlan, PurchasePlan, PaymentPlan, SettleRun, RefundRun, FindReservation;
    var plan := Plan(c, db, WorkerTxn(c, db, r, pc));
    if Row(c, db, Worker(r, pc), choice) == Some(run) {
      assert pc.Preparing? ==> plan[1].lock == RunLock(run) && !plan[1].nested;
      assert !pc.Preparing? ==> plan[0].lock == RunLock(run) && !plan[0].nested;
    }
  }

  lemma OtherRowIsWanted(c: Catalog, db: DB, a: Actor, choice: Choice, run: nat)
    requires run < |db.runs| && db.runs[run].status == Running && !a.Worker?
    ensures Row(c, db, a, choice) == Some(run) <==> AsksFor(Plan(c, db, ActorTxn(c, db, a, choice)), RunLock(run))
  {
    hide BeginPlan, PreparePlan, AdmissionPlan, PurchasePlan, PaymentPlan, FindReservation, FindEvent;
    if Row(c, db, a, choice) == Some(run) {
      assert Plan(c, db, ActorTxn(c, db, a, choice))[0].lock == RunLock(run);
    }
  }

  /** `Machine.Row` is the run row that an actor's next transaction asks for. */
  lemma RowIsWanted(c: Catalog, db: DB, a: Actor, choice: Choice, run: nat)
    requires run < |db.runs| && db.runs[run].status == Running
    ensures Row(c, db, a, choice) == Some(run) <==> AsksFor(Plan(c, db, ActorTxn(c, db, a, choice)), RunLock(run))
  {
    hide Plan, Row, AsksFor;
    if !a.Worker? {
      OtherRowIsWanted(c, db, a, choice, run);
    } else if !choice.Raise? {
      WorkerRowIsWanted(c, db, a.run, a.pc, choice, run);
    } else {
      RaisingWantsNothing(c, db, a, choice, run);
    }
  }

  lemma RaisingWantsNothing(c: Catalog, db: DB, a: Actor, choice: Choice, run: nat)
    requires a.Worker? && choice.Raise?
    ensures Row(c, db, a, choice) == None && !AsksFor(Plan(c, db, ActorTxn(c, db, a, choice)), RunLock(run))
  {
  }

  // ----- a lock manager -----

  /** A block that is past the first `held` locks of its plan. */
  datatype Session = Session(plan: seq<Want>, held: nat, over: bool)

  predicate Waiting(s: Session) {
    !s.over && s.held < |s.plan|
  }

  function Next(s: Session): Want
    requires Waiting(s)
  {
    s.plan[s.held]
  }

  predicate Holds(s: Session, a: nat) {
    !s.over && a < s.held && a < |s.plan| && !s.plan[a].nested
  }

  /** The session holds a lock that keeps w waiting. */
  predicate Bars(s: Session, w: Want) {
    exists a: nat :: a < |s.plan| && Holds(s, a) && Clash(s.plan[a], w)
  }

  /** Session i waits for a lock that session j holds; for one of its own only through a second session. */
  predicate WaitsFor(ss: seq<Session>, i: nat, j: nat) {
    i < |ss| && j < |ss| && Waiting(ss[i]) && (i == j ==> Next(ss[i]).nested) && Bars(ss[j], Next(ss[i]))
  }

  /** Session i can be granted its next lock, or holds them all and can end. */
  predicate CanMove(ss: seq<Session>, i: nat) {
    i < |ss| && !ss[i].over && forall j :: 0 <= j < |ss| ==> !WaitsFor(ss, i, j)
  }

  function Moved(ss: seq<Session>, i: nat): seq<Session> {
    if !CanMove(ss, i) then ss
    else if Waiting(ss[i]) then ss[i := ss[i].(held := ss[i].held + 1)]
    else ss[i := ss[i].(over := true)]
  }

  /** A schedule lets one session after another move, if it can. */
  function Scheduled(ss: seq<Session>, schedule: seq<nat>): seq<Session> {
    if |schedule| == 0 then ss
    else Moved(Scheduled(ss, schedule[..|schedule| - 1]), schedule[|schedule| - 1])
  }

  predicate AllOrdered(ss: seq<Session>) {
    forall i :: 0 <= i < |ss| ==> Ordered(ss[i].plan) && ss[i].held <= |ss[i].plan|
  }

  predicate AllOver(ss: seq<Session>) {
    forall i :: 0 <= i < |ss| ==> ss[i].over
  }

  predicate SamePlans(ss: seq<Session>, ss': seq<Session>) {
    |ss'| == |ss| && forall i :: 0 <= i < |ss| ==> ss'[i].plan == ss[i].plan
  }

  /** Conflicting locks are never granted to two sessions. */
  ghost predicate Exclusive(ss: seq<Session>) {
    forall i, j, a: nat :: 0 <= i < |ss| && 0 <= j < |ss| && i != j && Holds(ss[i], a) ==> !Bars(ss[j], ss[i].plan[a])
  }

  lemma MoveKeeps(ss: seq<Session>, i: nat)
    requires AllOrdered(ss) && Exclusive(ss)
    ensures AllOrdered(Moved(ss, i)) && Exclusive(Moved(ss, i)) && SamePlans(ss, Moved(ss, i))
  {
    if CanMove(ss, i) && Waiting(ss[i]) {
      GrantKeepsExclusive(ss, i);
    }
  }

  lemma GrantKeepsExclusive(ss: seq<Session>, i: nat)
    requires Exclusive(ss) && CanMove(ss, i) && Waiting(ss[i])
    ensures Exclusive(ss[i := ss[i].(held := ss[i].held + 1)])
  {
    var ss' := ss[i := ss[i].(held := ss[i].held + 1)];
    forall j, k, a: nat | 0 <= j < |ss'| && 0 <= k < |ss'| && j != k && Holds(ss'[j], a)
      ensures !Bars(ss'[k], ss'[j].plan[a])
    {
      if j == i && a == ss[i].held {
        assert !WaitsFor(ss, i, k);
      } else if k == i {
        assert !WaitsFor(ss, i, j);
      }
    }
  }

  lemma {:induction false} ScheduleKeeps(ss: seq<Session>, schedule: seq<nat>)
    requires AllOrdered(ss) && Exclusive(ss)
    ensures AllOrdered(Scheduled(ss, schedule)) && Exclusive(Scheduled(ss, schedule))
    ensures SamePlans(ss, Scheduled(ss, schedule))
    decreases |schedule|
  {
    hide AllOrdered, Exclusive, Moved;
    if |schedule| > 0 {
      ScheduleKeeps(ss, schedule[..|schedule| - 1]);
      MoveKeeps(Scheduled(ss, schedule[..|schedule| - 1]), schedule[|schedule| - 1]);
    }
  }

  // ----- who waits for whom -----

  lemma WaitsIncrease(ss: seq<Session>, i: nat, j: nat)
    requires AllOrdered(ss) && WaitsFor(ss, i, j) && Waiting(ss[j]) && !WaitsFor(ss, j, j)
    ensures Before(Next(ss[i]).lock, Next(ss[j]).lock)
  {
    var a: nat :| a < |ss[j].plan| && Holds(ss[j], a) && Clash(ss[j].plan[a], Next(ss[i]));
    assert Before(ss[j].plan[a].lock, ss[j].plan[ss[j].held].lock) || Tangled(ss[j].plan, a, ss[j].held);
  }

  /** A chain of waiting sessions closes into a cycle only through one that waits for itself. */
  lemma {:induction false} NoCycle(ss: seq<Session>, chain: seq<nat>)
    requires AllOrdered(ss) && |chain| >= 2
    requires forall m :: 0 <= m < |chain| - 1 ==> WaitsFor(ss, chain[m], chain[m + 1])
    requires forall m :: 0 < m < |chain| ==>
                         chain[m] < |ss| && Waiting(ss[chain[m]]) && !WaitsFor(ss, chain[m], chain[m])
    ensures chain[0] != chain[|chain| - 1]
    ensures WaitsFor(ss, chain[0], chain[1])
    ensures Before(Next(ss[chain[0]]).lock, Next(ss[chain[|chain| - 1]]).lock)
    decreases |chain|
  {
    assert WaitsFor(ss, chain[0], chain[1]);
    WaitsIncrease(ss, chain[0], chain[1]);
    if |chain| > 2 {
      assert WaitsFor(ss, chain[1], chain[2]);
      var rest := chain[1..];
      assert forall m :: 0 <= m < |rest| - 1 ==> rest[m] == chain[m + 1] && WaitsFor(ss, rest[m], rest[m + 1]);
      NoCycle(ss, rest);
    }
  }

  /** The sessions that wait for something of higher rank. */
  ghost function Above(ss: seq<Session>, k: nat): set<nat>
    requires k < |ss| && Waiting(ss[k])
  {
    set m | 0 <= m < |ss| && Waiting(ss[m]) && Before(Next(ss[k]).lock, Next(ss[m]).lock)
  }

  lemma AboveShrinks(ss: seq<Session>, k: nat, j: nat)
    requires k < |ss| && Waiting(ss[k]) && j < |ss| && Waiting(ss[j]) && Before(Next(ss[k]).lock, Next(ss[j]).lock)
    ensures Above(ss, j) < Above(ss, k)
  {
    assert j in Above(ss, k) && j !in Above(ss, j);
  }

  /** When nobody can move, an unfinished session waits, through others, for one that waits for itself. */
  lemma {:induction false} StuckBehind(ss: seq<Session>, k: nat) returns (chain: seq<nat>)
    requires AllOrdered(ss) && k < |ss| && !ss[k].over && forall i :: 0 <= i < |ss| ==> !CanMove(ss, i)
    ensures chain != [] && chain[0] == k && forall m :: 0 <= m < |chain| - 1 ==> WaitsFor(ss, chain[m], chain[m + 1])
    ensures WaitsFor(ss, chain[|chain| - 1], chain[|chain| - 1])
    decreases if Waiting(ss[k]) then Above(ss, k) else {}
  {
    assert !CanMove(ss, k);
    if WaitsFor(ss, k, k) {
      chain := [k];
    } else {
      var j :| 0 <= j < |ss| && WaitsFor(ss, k, j);
      assert !CanMove(ss, j);
      if WaitsFor(ss, j, j) {
        chain := [k, j];
      } else {
        WaitsIncrease(ss, k, j);
        AboveShrinks(ss, k, j);
        var rest := StuckBehind(ss, j);
        chain := [k] + rest;
      }
    }
  }

  /** While any session is unfinished and none waits for itself, some session can move. */
  lemma SomeoneCanMove(ss: seq<Session>) returns (i: nat)
    requires AllOrdered(ss) && !AllOver(ss)
    requires forall k :: 0 <= k < |ss| ==> !SelfWaiting(ss[k].plan)
    ensures CanMove(ss, i)
  {
    if m :| 0 <= m < |ss| && CanMove(ss, m) {
      i := m;
    } else {
      var k :| 0 <= k < |ss| && !ss[k].over;
      var chain := StuckBehind(ss, k);
      var last := chain[|chain| - 1];
      TangledNow(ss, last);
      assert false;
    }
  }

  lemma TangledNow(ss: seq<Session>, i: nat)
    requires WaitsFor(ss, i, i)
    ensures SelfWaiting(ss[i].plan)
  {
    var a: nat :| a < |ss[i].plan| && Holds(ss[i], a) && Clash(ss[i].plan[a], Next(ss[i]));
    assert Tangled(ss[i].plan, a, ss[i].held);
  }

  function StepsLeft(s: Session): int {
    if s.over then 0 else if s.held <= |s.plan| then |s.plan| - s.held + 1 else 1
  }

  ghost predicate CanAllEnd(ss: seq<Session>) {
    exists schedule: seq<nat> :: AllOver(Scheduled(ss, schedule))
  }

  /** Unless one waits for itself, some schedule ends every session. */
  lemma {:induction false} AllCanEnd(ss: seq<Session>)
    requires AllOrdered(ss) && Exclusive(ss)
    requires forall k :: 0 <= k < |ss| ==> !SelfWaiting(ss[k].plan)
    ensures CanAllEnd(ss)
    decreases Sum(ss, StepsLeft)
  {
    hide SelfWaiting, AllOrdered, Exclusive;
    if AllOver(ss) {
      assert AllOver(Scheduled(ss, []));
    } else {
      var i := SomeoneCanMove(ss);
      SumUpdate(ss, i, Moved(ss, i)[i], StepsLeft);
      MoveKeeps(ss, i);
      SumNonNegative(ss, StepsLeft);
      AllCanEnd(Moved(ss, i));
      var rest: seq<nat> :| AllOver(Scheduled(Moved(ss, i), rest));
      ScheduledFrom(ss, i, rest);
      assert AllOver(Scheduled(ss, [i] + rest));
    }
  }

  lemma {:induction false} ScheduledFrom(ss: seq<Session>, i: nat, rest: seq<nat>)
    ensures Scheduled(ss, [i] + rest) == Scheduled(Moved(ss, i), rest)
    decreases |rest|
  {
    if |rest| > 0 {
      var front := rest[..|rest| - 1];
      assert ([i] + rest)[..|rest|] == [i] + front;
      ScheduledFrom(ss, i, front);
    }
  }

  /** A session that waits for itself does so under every schedule. */
  lemma {:induction false} NeverEnds(ss: seq<Session>, schedule: seq<nat>, k: nat, i: nat, j: nat)
    requires k < |ss| && Tangled(ss[k].plan, i, j) && ss[k].held <= j && !ss[k].over
    ensures var s := Scheduled(ss, schedule); k < |s| && s[k].plan == ss[k].plan && s[k].held <= j && !s[k].over
    decreases |schedule|
  {
    if |schedule| > 0 {
      var before := Scheduled(ss, schedule[..|schedule| - 1]);
      NeverEnds(ss, schedule[..|schedule| - 1], k, i, j);
      if before[k].held == j {
        assert Bars(before[k], Next(before[k]));
        assert WaitsFor(before, k, k);
      }
    }
  }

  // ----- any blocks -----

  /** Sessions for these blocks, each planned from the database it saw. */
  function Opened(c: Catalog, blocks: seq<Block>, seen: seq<DB>): seq<Session>
    requires |seen| == |blocks|
  {
    seq(|blocks|, i requires 0 <= i < |blocks| => Session(PlanOf(c, seen[i], blocks[i]), 0, false))
  }

  lemma OpenedRuns(c: Catalog, blocks: seq<Block>, seen: seq<DB>, schedule: seq<nat>)
    requires |seen| == |blocks|
    ensures var ss := Scheduled(Opened(c, blocks, seen), schedule);
            && AllOrdered(ss) && Exclusive(ss) && |ss| == |blocks|
            && forall k :: 0 <= k < |ss| ==> (SelfWaiting(ss[k].plan) <==> HangingBlock(seen[k], blocks[k]))
  {
    hide PlanOf, HangingBlock, SelfWaiting, Ordered;
    var start := Opened(c, blocks, seen);
    forall i | 0 <= i < |start|
      ensures Ordered(start[i].plan) && (SelfWaiting(start[i].plan) <==> HangingBlock(seen[i], blocks[i]))
    {
      PlansAreOrdered(c, seen[i], blocks[i]);
      SelfWaitingExactlyWhen(c, seen[i], blocks[i]);
    }
    ScheduleKeeps(start, schedule);
  }

  lemma HangingNeverEnds(c: Catalog, blocks: seq<Block>, seen: seq<DB>, schedule: seq<nat>, k: nat)
    requires |seen| == |blocks| && k < |blocks| && HangingBlock(seen[k], blocks[k])
    ensures var ss := Scheduled(Opened(c, blocks, seen), schedule);
            |ss| == |blocks| && !ss[k].over && !CanAllEnd(ss)
  {
    hide PlanOf, HangingBlock;
    OpenedRuns(c, blocks, seen, schedule);
    var start := Opened(c, blocks, seen);
    var ss := Scheduled(start, schedule);
    SelfWaitingExactlyWhen(c, seen[k], blocks[k]);
    var i, j :| Tangled(start[k].plan, i, j);
    NeverEnds(start, schedule, k, i, j);
    forall more: seq<nat> ensures !AllOver(Scheduled(ss, more)) {
      NeverEnds(ss, more, k, i, j);
    }
  }

  /** Any blocks, reading any databases, after any schedule: some continuation ends them all if and only
      if none of them is the opening block of a RUNNING run with a RUNNING checkpoint. */
  lemma NoDeadlock(c: Catalog, blocks: seq<Block>, seen: seq<DB>, schedule: seq<nat>)
    requires |seen| == |blocks|
    ensures CanAllEnd(Scheduled(Opened(c, blocks, seen), schedule))
       <==> forall k :: 0 <= k < |blocks| ==> !HangingBlock(seen[k], blocks[k])
  {
    hide HangingBlock, CanAllEnd, SelfWaiting;
    OpenedRuns(c, blocks, seen, schedule);
    if k :| 0 <= k < |blocks| && HangingBlock(seen[k], blocks[k]) {
      HangingNeverEnds(c, blocks, seen, schedule, k);
    } else {
      AllCanEnd(Scheduled(Opened(c, blocks, seen), schedule));
    }
  }

  /** And whenever none of them can move, each unfinished one waits, through others, for such a block. */
  lemma OnlyHangingBlocksBar(c: Catalog, blocks: seq<Block>, seen: seq<DB>, schedule: seq<nat>, ss: seq<Session>,
                             k: nat)
    returns (chain: seq<nat>)
    requires |seen| == |blocks| && ss == Scheduled(Opened(c, blocks, seen), schedule)
    requires k < |ss| && !ss[k].over && forall i :: 0 <= i < |ss| ==> !CanMove(ss, i)
    ensures chain != [] && chain[0] == k && forall m :: 0 <= m < |chain| - 1 ==> WaitsFor(ss, chain[m], chain[m + 1])
    ensures var last := chain[|chain| - 1];
            last < |blocks| && WaitsFor(ss, last, last) && HangingBlock(seen[last], blocks[last])
  {
    hide HangingBlock, SelfWaiting;
    OpenedRuns(c, blocks, seen, schedule);
    chain := StuckBehind(ss, k);
    TangledNow(ss, chain[|chain| - 1]);
  }

  /** Order matters: an admission that took the quota lock before the idempotency lock would
      deadlock with one that takes them as the code does. */
  lemma OppositeOrdersDeadlock(t: nat, key: string, month: nat) returns (schedule: seq<nat>)
    ensures var a, b := Own(KeyLock(t, key)), Own(QuotaLock(t, month));
            var ss := Scheduled([Session([a, b], 0, false), Session([b, a], 0, false)], schedule);
            && |ss| == 2 && !ss[0].over && !ss[1].over && WaitsFor(ss, 0, 1) && WaitsFor(ss, 1, 0)
            && forall i :: !CanMove(ss, i)
  {
    var a, b := Own(KeyLock(t, key)), Own(QuotaLock(t, month));
    var start := [Session([a, b], 0, false), Session([b, a], 0, false)];
    schedule := [0, 1];
    var first := [Session([a, b], 1, false), Session([b, a], 0, false)];
    var both := [Session([a, b], 1, false), Session([b, a], 1, false)];
    assert CanMove(start, 0) && Moved(start, 0) == first;
    assert CanMove(first, 1) && Moved(first, 1) == both;
    assert schedule[..1] == [0] && [0][..0] == [];
    assert Scheduled(start, [0]) == first;
    assert Scheduled(start, schedule) == both;
    assert Clash(both[0].plan[0], both[1].plan[1]) && Clash(both[1].plan[0], both[0].plan[1]);
    assert Holds(both[0], 0) && Holds(both[1], 0);
    assert WaitsFor(both, 0, 1) && WaitsFor(both, 1, 0);
  }
}
