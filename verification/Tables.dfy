/** The database tables of zomega/models.py that take part in the credit protocol. */
module Tables {
  import opened Rows

  /** Credit balances of one tenant; the tenant's id is the row number. */
  datatype Wallet = Wallet(available: int, reserved: int, version: nat)

  datatype Kind = Credit | Reserve | Refund | Charge | MarketplaceCharge | MarketplaceEarning

  /** reference_type and reference_id of a ledger row */
  datatype Reference =
    | PaymentEventRef(event: string)
    | ReservationRef(reservation: nat)
    | RunRef(run: nat)
    | PurchaseRef(sale: nat)
    | SaleRef(sale: nat)

  datatype Entry = Entry(tenant: nat, kind: Kind, amount: int, reference: Reference)
  datatype LedgerRow = LedgerRow(entry: Entry, createdAt: nat)

  datatype ReservationStatus = Open | Settled | Refunded
  datatype Reservation = Reservation(
    tenant: nat,
    run: nat,
    amount: int,
    settled: int,
    status: ReservationStatus,
    createdAt: nat,
    expiresAt: nat)

  datatype PaymentEvent = PaymentEvent(
    id: string,
    eventType: string,
    tenant: Option<nat>,
    credits: int,
    verified: bool)

  datatype Publisher = Publisher(tenant: nat)

  /** marketplace_ledger */
  datatype Sale = Sale(
    buyer: nat,
    publisher: nat,
    listing: nat,
    key: string,
    gross: int,
    publisherCredits: int,
    platformCredits: int)

  /** The tables that hold money, or that say who is owed it. */
  datatype Books = Books(
    wallets: seq<Wallet>,
    ledger: seq<LedgerRow>,
    reservations: seq<Reservation>,
    payments: seq<PaymentEvent>,
    publishers: seq<Publisher>,
    sales: seq<Sale>)

  datatype RunStatus =
    | PendingDispatch | Queued | Running | CancelRequested
    | Pass | Partial | Fail | Blocked | Cancelled

  /** One completed skill in a run's result_json */
  datatype Step = Step(skill: string, output: string, responseId: string, charged: int)

  datatype Run = Run(
    tenant: nat,
    agent: string,
    skill: Option<string>,
    payload: string,
    maxSpend: int,
    createdAt: nat,
    status: RunStatus,
    startedAt: Option<nat>,
    charged: int,
    cancelRequested: bool,
    error: Option<string>,
    result: Option<seq<Step>>)

  /** The RUN_REQUESTED row of one run */
  datatype OutboxEvent = OutboxEvent(run: nat, dispatched: bool, attempts: nat, availableAt: nat)

  /** What the provider returned for one skill */
  datatype Answer = Answer(output: string, responseId: string, tokensIn: nat, tokensOut: nat)

  datatype Execution =
    | InFlight(skill: string)
    | Completed(skill: string, answer: Answer, charged: int)

  /** What json.dumps canonicalises and SHA-256 hashes; the hash is taken to be injective. */
  datatype Fingerprint = Fingerprint(agent: string, skill: Option<string>, payload: string, reservation: int)
  datatype IdempotencyRecord = IdempotencyRecord(fingerprint: Fingerprint, run: nat)

  datatype UsageEvent = UsageEvent(run: nat, tokensIn: int, tokensOut: int)

  datatype SkillVersion = SkillVersion(publisher: nat, active: bool)
  datatype Listing = Listing(version: nat, price: int, shareBps: int, active: bool)

  datatype Control = Control(
    monthlyCreditLimit: Option<int>,
    monthlyRunLimit: Option<int>,
    allowedAgents: set<string>,
    allowedSkills: set<string>,
    retentionDays: int,
    version: nat)

  /** The whole database, and the clock its transactions read. */
  datatype DB = DB(
    books: Books,
    runs: seq<Run>,
    outbox: seq<OutboxEvent>,
    executions: map<(nat, nat), Execution>,       // keyed by uq_skill_execution_run_sequence
    idempotency: map<(nat, string), IdempotencyRecord>,
    usage: seq<UsageEvent>,
    versions: seq<SkillVersion>,
    listings: seq<Listing>,
    grants: set<(nat, nat)>,                      // tenant, skill version
    controls: map<nat, Control>,
    now: nat,
    monthStart: nat)

  datatype Error =
    | NotFound
    | Forbidden
    | InvalidRequest
    | InsufficientCredits
    | RunLimitExceeded
    | CreditLimitExceeded
    | KeyReused
    | OwnListing
    | ReservationNotOpen
    | ChargeExceedsReservation
    | InvalidPayment
    | WaitsForItself
    | ConstraintViolation

  /** A session_scope block: it commits all of its writes, or rolls all of them back. */
  datatype Outcome<+T> = Committed(value: T) | RolledBack(error: Error)

  function Key(e: Entry): (Kind, nat, Reference) {
    (e.kind, e.tenant, e.reference)
  }

  /** The check and unique constraints declared on the money tables. */
  ghost predicate ConstraintsHold(b: Books) {
    && (forall t :: 0 <= t < |b.wallets| ==> b.wallets[t].available >= 0 && b.wallets[t].reserved >= 0)
    && (forall i :: 0 <= i < |b.ledger| ==> b.ledger[i].entry.amount != 0)
    && (forall i, j :: 0 <= i < j < |b.ledger| ==> Key(b.ledger[i].entry) != Key(b.ledger[j].entry))
    && (forall r :: 0 <= r < |b.reservations| ==> b.reservations[r].amount > 0 && b.reservations[r].settled >= 0)
    && (forall q, r :: 0 <= q < r < |b.reservations| ==> b.reservations[q].run != b.reservations[r].run)
    && (forall i, j :: 0 <= i < j < |b.payments| ==> b.payments[i].id != b.payments[j].id)
    && (forall k :: 0 <= k < |b.sales| ==>
                      b.sales[k].gross > 0 && b.sales[k].publisherCredits >= 0 && b.sales[k].platformCredits >= 0)
    && (forall i, j :: 0 <= i < j < |b.sales| ==>
                         (b.sales[i].buyer, b.sales[i].key) != (b.sales[j].buyer, b.sales[j].key))
  }
}
