/** The wallet transactions of zomega/billing.py. */
module Billing {
  import opened Rows
  import opened Tables

  function Post(ledger: seq<LedgerRow>, entries: seq<Entry>, now: nat): seq<LedgerRow> {
    ledger + seq(|entries|, i requires 0 <= i < |entries| => LedgerRow(entries[i], now))
  }

  function FindReservation(b: Books, run: nat): Option<nat> {
    IndexOf(b.reservations, (r: Reservation) => r.run == run)
  }

  function FindPayment(payments: seq<PaymentEvent>, id: string): Option<nat> {
    IndexOf(payments, (p: PaymentEvent) => p.id == id)
  }

  /** process_verified_payment: the flag says whether the event id was new. */
  function ProcessPayment(b: Books, p: PaymentEvent, now: nat): Outcome<(Books, bool)> {
    if FindPayment(b.payments, p.id).Some? then Committed((b, false))
    else if p.tenant.Some? && p.tenant.value >= |b.wallets| then RolledBack(ConstraintViolation)
    else if !p.verified then Committed((b.(payments := b.payments + [p]), true))
    else if p.tenant.None? || p.credits <= 0 then RolledBack(InvalidPayment)
    else
      var t := p.tenant.value;
      var w := b.wallets[t];
      Committed((b.(
                 payments := b.payments + [p],
                 wallets := b.wallets[t := Wallet(w.available + p.credits, w.reserved, w.version + 1)],
                 ledger := Post(b.ledger, [Entry(t, Credit, p.credits, PaymentEventRef(p.id))], now)),
                 true))
  }

  function ChargeEntries(r: Reservation, charge: int): seq<Entry> {
    if charge == 0 then [] else [Entry(r.tenant, Charge, -charge, RunRef(r.run))]
  }

  function RefundEntries(r: Reservation, id: nat, refund: int): seq<Entry> {
    if refund == 0 then [] else [Entry(r.tenant, Refund, refund, ReservationRef(id))]
  }

  function SettleRun(b: Books, run: nat, charge: int, now: nat): Outcome<Books> {
    var found := FindReservation(b, run);
    if found.None? then RolledBack(NotFound)
    else
      var id := found.value;
      var r := b.reservations[id];
      if r.status != Open then RolledBack(ReservationNotOpen)
      else if charge < 0 || charge > r.amount then RolledBack(ChargeExceedsReservation)
      else if r.tenant >= |b.wallets| then RolledBack(NotFound)
      else
        var w := b.wallets[r.tenant];
        var refund := r.amount - charge;
        Committed(b.(
                  wallets := b.wallets[r.tenant := Wallet(w.available + refund, w.reserved - r.amount, w.version + 1)],
                  reservations := b.reservations[id := r.(status := Settled, settled := charge)],
                  ledger := Post(b.ledger, ChargeEntries(r, charge) + RefundEntries(r, id, refund), now)))
  }

  function RefundRun(b: Books, run: nat, now: nat): Outcome<Books> {
    var found := FindReservation(b, run);
    if found.None? || b.reservations[found.value].status != Open then Committed(b)
    else
      var id := found.value;
      var r := b.reservations[id];
      if r.tenant >= |b.wallets| then RolledBack(NotFound)
      else
        var w := b.wallets[r.tenant];
        Committed(b.(
                  wallets := b.wallets[r.tenant := Wallet(w.available + r.amount, w.reserved - r.amount,
                                                          w.version + 1)],
                  reservations := b.reservations[id := r.(status := Refunded)],
                  ledger := Post(b.ledger, [Entry(r.tenant, Refund, r.amount, ReservationRef(id))], now)))
  }

  function AddWallet(b: Books): Books {
    b.(wallets := b.wallets + [Wallet(0, 0, 0)])
  }

  /** What the columns of one row add to a tenant's totals. */
  function OpenAmount(t: nat): Reservation -> int {
    (r: Reservation) => if r.tenant == t && r.status == Open then r.amount else 0
  }

  /** The kinds reconcile_wallet nets: everything but reserve and refund. */
  function NetEffect(t: nat): LedgerRow -> int {
    (row: LedgerRow) =>
      if row.entry.tenant == t && row.entry.kind !in {Reserve, Refund} then row.entry.amount else 0
  }

  datatype Reconciliation = Reconciliation(ok: bool, openReserved: int, ledgerNet: int, observedTotal: int)

  function ReconcileWallet(b: Books, t: nat): Reconciliation
    requires t < |b.wallets|
  {
    var w := b.wallets[t];
    var openReserved := Sum(b.reservations, OpenAmount(t));
    var ledgerNet := Sum(b.ledger, NetEffect(t));
    Reconciliation(
      w.available >= 0 && w.reserved >= 0 && w.reserved == openReserved && w.available + w.reserved == ledgerNet,
      openReserved, ledgerNet, w.available + w.reserved)
  }
}
