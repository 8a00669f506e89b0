/** Every committed block as one datatype, and histories of them. A history may hold any
    transaction with any arguments in any order, so it covers every interleaving of API calls,
    webhooks, dispatchers, workers, reaper and operator, and a crash between any two blocks. */
module Transactions {
  import opened Rows
  import opened Tables
  import opened Pricing
  import opened Billing
  import opened Marketplace
  import opened Admission
  import opened RunBlocks

  datatype Txn =
    | CreateTenant
    | Deliver(payment: PaymentEvent)
    | AdmitAgent(tenant: nat, agent: string, payload: string, maxSpend: Option<int>, key: Option<string>)
    | AdmitSkill(tenant: nat, plan: string, skill: string, payload: string, key: Option<string>)
    | Buy(buyer: nat, listing: nat, purchaseKey: string)
    | RegisterPublisher(owner: nat)
    | Publish(owner: nat)
    | List(owner: nat, version: nat, price: int, shareBps: int)
    | SetControl(tenant: nat, control: Control)
    | Tick(now: nat, monthStart: nat)
    | BeginRun(run: nat)
    | PrepareStep(run: nat, sequenceNo: nat, skillId: string)
    | RecordStep(run: nat, sequenceNo: nat, answer: Answer, charge: int)
    | SettleTxn(run: nat, charge: int)
    | RefundTxn(run: nat)
    | CloseTxn(run: nat, closing: Closing)
    | CancelTxn(run: nat, tenant: nat)
    | ExpireTxn(run: nat)
    | DispatchFailedTxn(run: nat)
    | DispatchedTxn(run: nat)
    | ReadOnly

  /** set_control accepts only positive limits, at least 30 days of audit retention and known tenants. */
  predicate ValidControl(db: DB, t: nat, control: Control) {
    && t < |db.books.wallets|
    && (control.monthlyCreditLimit.Some? ==> control.monthlyCreditLimit.value > 0)
    && (control.monthlyRunLimit.Some? ==> control.monthlyRunLimit.value > 0)
    && control.retentionDays >= 30
  }

  /** Each write of a control row counts its version up. */
  function Stamped(db: DB, t: nat, control: Control): Control {
    control.(version := if t in db.controls then db.controls[t].version + 1 else 1)
  }

  function Admit(db: DB, q: Outcome<Request>): DB {
    if q.RolledBack? then db
    else
      var result := CreateRun(db, q.value);
      if result.Committed? then result.value.0 else db
  }

  /** The request an admission transaction carries, if it carries one. */
  function RequestOf(c: Catalog, txn: Txn): Outcome<Request> {
    match txn
    case AdmitAgent(t, agent, payload, maxSpend, key) => AgentRequest(c, t, agent, payload, maxSpend, key)
    case AdmitSkill(t, plan, skill, payload, key) => SkillRequest(c, t, plan, skill, payload, key)
    case _ => RolledBack(InvalidRequest)
  }

  function WithBooks(db: DB, result: Outcome<Books>): DB {
    if result.Committed? then db.(books := result.value) else db
  }

  function Apply(c: Catalog, db: DB, txn: Txn): DB {
    match txn
    case CreateTenant => db.(books := AddWallet(db.books))
    case Deliver(p) =>
      var result := ProcessPayment(db.books, p, db.now);
      if result.Committed? then db.(books := result.value.0) else db
    case AdmitAgent(_, _, _, _, _) => Admit(db, RequestOf(c, txn))
    case AdmitSkill(_, _, _, _, _) => Admit(db, RequestOf(c, txn))
    case Buy(buyer, listing, key) =>
      var result := PurchaseListing(db, buyer, listing, key);
      if result.Committed? then result.value.0 else db
    case RegisterPublisher(t) => WithBooks(db, UpsertPublisher(db.books, t))
    case Publish(t) => (var result := PublishSkill(db, t); if result.Committed? then result.value else db)
    case List(t, version, price, shareBps) =>
      var result := CreateListing(db, t, version, price, shareBps);
      if result.Committed? then result.value else db
    case SetControl(t, control) =>
      if ValidControl(db, t, control) then db.(controls := db.controls[t := Stamped(db, t, control)]) else db
    case Tick(now, monthStart) =>
      // Time moves forward; a new month starts after everything already written.
      if db.now <= now && monthStart <= now && (monthStart == db.monthStart || db.now < monthStart)
      then db.(now := now, monthStart := monthStart) else db
    case BeginRun(run) => (var result := Begin(db, run); if result.Committed? then result.value.0 else db)
    case PrepareStep(run, k, skill) => Prepare(db, run, k, skill, false).0
    case RecordStep(run, k, answer, charge) => Checkpoint(db, run, k, answer, charge)
    case SettleTxn(run, charge) => WithBooks(db, SettleRun(db.books, run, charge, db.now))
    case RefundTxn(run) => WithBooks(db, RefundRun(db.books, run, db.now))
    case CloseTxn(run, w) => Close(db, run, w)
    case CancelTxn(run, tenant) =>
      var result := RequestCancel(db, run, tenant);
      if result.Committed? then result.value.0 else db
    case ExpireTxn(run) => Expire(db, run)
    case DispatchFailedTxn(run) => DispatchFailed(db, run)
    case DispatchedTxn(run) => Dispatched(db, run)
    case ReadOnly => db
  }

  /** The database after a history of transactions. */
  function Replayed(c: Catalog, db: DB, history: seq<Txn>): DB {
    if |history| == 0 then db
    else Apply(c, Replayed(c, db, history[..|history| - 1]), history[|history| - 1])
  }

  const EMPTY_BOOKS := Books([], [], [], [], [], [])

  function EmptyDB(now: nat, monthStart: nat): DB {
    DB(EMPTY_BOOKS, [], [], map[], map[], [], [], [], {}, map[], now, monthStart)
  }
}
