/** Run admission: zomega/run_service.py and the quota check of zomega/commercial.py. */
module Admission {
  import opened Rows
  import opened Tables
  import opened Pricing
  import opened Billing

  const RESERVATION_SECONDS: nat := 7200

  /** The part of a request that reaches _create_run. */
  datatype Request = Request(tenant: nat, fingerprint: Fingerprint, key: Option<string>)

  function AgentReservation(c: Catalog, agent: string): Outcome<int> {
    if agent !in c.agents then RolledBack(NotFound)
    else if exists s :: s in c.agents[agent] && s !in c.skills then RolledBack(NotFound)
    else
      var total := Sum(c.agents[agent], (s: string) => if s in c.skills then SkillReservation(c.skills[s]) else 0);
      Committed(if total <= c.maxRunCredits then total else c.maxRunCredits)
  }

  function AgentRequest(c: Catalog, t: nat, agent: string, payload: string, maxSpend: Option<int>, key: Option<string>)
    : Outcome<Request>
  {
    var reservation := AgentReservation(c, agent);
    if reservation.RolledBack? then RolledBack(reservation.error)
    else
      var r := if maxSpend.Some? && maxSpend.value < reservation.value then maxSpend.value else reservation.value;
      if r <= 0 then RolledBack(InvalidRequest)
      else Committed(Request(t, Fingerprint(agent, None, payload, r), key))
  }

  function SkillRequest(c: Catalog, t: nat, plan: string, skill: string, payload: string, key: Option<string>)
    : Outcome<Request>
  {
    if skill !in c.skills || !c.skills[skill].enabled then RolledBack(NotFound)
    else if plan !in c.skills[skill].plans then RolledBack(Forbidden)
    else
      var s := c.skills[skill];
      Committed(Request(t, Fingerprint(s.agent, Some(skill), payload, SkillReservation(s)), key))
  }

  function RunsSince(t: nat, month: int): Run -> int {
    (r: Run) => if r.tenant == t && r.createdAt >= month then 1 else 0
  }

  function SpentSince(t: nat, month: int): LedgerRow -> int {
    (row: LedgerRow) =>
      if row.entry.tenant == t && row.createdAt >= month && row.entry.kind in {Charge, MarketplaceCharge}
      then -row.entry.amount else 0
  }

  function OpenSince(t: nat, month: int): Reservation -> int {
    (r: Reservation) => if r.tenant == t && r.status == Open && r.createdAt >= month then r.amount else 0
  }

  /** enforce_tenant_admission: None when the request may go ahead. */
  function AdmissionError(db: DB, q: Request): Option<Error> {
    if q.tenant !in db.controls then None
    else
      var control := db.controls[q.tenant];
      var f := q.fingerprint;
      if control.allowedAgents != {} && f.agent !in control.allowedAgents then Some(Forbidden)
      else if f.skill.Some? && control.allowedSkills != {} && f.skill.value !in control.allowedSkills
      then Some(Forbidden)
      else if control.monthlyRunLimit.Some?
              && Sum(db.runs, RunsSince(q.tenant, db.monthStart)) >= control.monthlyRunLimit.value
      then Some(RunLimitExceeded)
      else if control.monthlyCreditLimit.Some?
              && Sum(db.books.ledger, SpentSince(q.tenant, db.monthStart))
                 + Sum(db.books.reservations, OpenSince(q.tenant, db.monthStart))
                 + f.reservation > control.monthlyCreditLimit.value
      then Some(CreditLimitExceeded)
      else None
  }

  /** available -> reserved, with the reservation row and its ledger row */
  function Hold(b: Books, t: nat, run: nat, amount: int, now: nat): Books
    requires t < |b.wallets|
  {
    var w := b.wallets[t];
    b.(wallets := b.wallets[t := Wallet(w.available - amount, w.reserved + amount, w.version + 1)],
    reservations := b.reservations + [Reservation(t, run, amount, 0, Open, now, now + RESERVATION_SECONDS)],
    ledger := Post(b.ledger, [Entry(t, Reserve, -amount, ReservationRef(|b.reservations|))], now))
  }

  function NewRun(q: Request, now: nat): Run {
    var f := q.fingerprint;
    Run(q.tenant, f.agent, f.skill, f.payload, f.reservation, now, PendingDispatch, None, 0, false, None, None)
  }

  /** An absent or empty header means no idempotency. */
  predicate Keyed(q: Request) {
    q.key.Some? && q.key.value != ""
  }

  function Insert(db: DB, q: Request): DB
    requires q.tenant < |db.books.wallets|
  {
    var run := |db.runs|;
    db.(books := Hold(db.books, q.tenant, run, q.fingerprint.reservation, db.now),
    runs := db.runs + [NewRun(q, db.now)],
    idempotency := if Keyed(q) then db.idempotency[(q.tenant, q.key.value) := IdempotencyRecord(q.fingerprint, run)]
    else db.idempotency,
    outbox := db.outbox + [OutboxEvent(run, false, 0, db.now)])
  }

  datatype Admitted = Admitted(run: nat, replayed: bool)

  function CreateRun(db: DB, q: Request): Outcome<(DB, Admitted)> {
    if Keyed(q) && (q.tenant, q.key.value) in db.idempotency then
      var existing := db.idempotency[(q.tenant, q.key.value)];
      if existing.fingerprint != q.fingerprint then RolledBack(KeyReused)
      else Committed((db, Admitted(existing.run, true)))
    else if AdmissionError(db, q).Some? then RolledBack(AdmissionError(db, q).value)
    else if q.tenant >= |db.books.wallets| then RolledBack(NotFound)
    else if db.books.wallets[q.tenant].available < q.fingerprint.reservation then RolledBack(InsufficientCredits)
    else if q.fingerprint.reservation <= 0 then RolledBack(ConstraintViolation)
    else Committed((Insert(db, q), Admitted(|db.runs|, false)))
  }
}
