/** What the money tables satisfy after every transaction: each tenant's wallet is a fold of its
    ledger, the ledger holds exactly the rows its payments, reservations and sales call for, and
    no credit appears or disappears. */
module BooksInvariant {
  import opened Rows
  import opened Tables
  import opened Billing
  import opened Marketplace
  import opened Admission

  /** The payment, reservation or sale a ledger row belongs to. */
  datatype Subject = Payment(event: string) | Held(reservation: nat) | Sold(sale: nat)

  function SubjectOf(reference: Reference): Subject {
    match reference
    case PaymentEventRef(e) => Payment(e)
    case ReservationRef(r) => Held(r)
    case RunRef(r) => Held(r)       // a run's reservation has the run's row number
    case PurchaseRef(k) => Sold(k)
    case SaleRef(k) => Sold(k)
  }

  /** The ledger rows of one subject, oldest first. */
  function Posted(ledger: seq<LedgerRow>, s: Subject): seq<Entry> {
    if |ledger| == 0 then []
    else
      var e := ledger[|ledger| - 1].entry;
      Posted(ledger[..|ledger| - 1], s) + if SubjectOf(e.reference) == s then [e] else []
  }

  function ReservationEntries(r: Reservation, id: nat): seq<Entry> {
    [Entry(r.tenant, Reserve, -r.amount, ReservationRef(id))]
    + match r.status
      case Open => []
      case Refunded => [Entry(r.tenant, Refund, r.amount, ReservationRef(id))]
      case Settled => ChargeEntries(r, r.settled) + RefundEntries(r, id, r.amount - r.settled)
  }

  /** The rows a subject must have, no more and no fewer. */
  function Expected(b: Books, s: Subject): seq<Entry> {
    match s
    case Payment(e) =>
      var found := FindPayment(b.payments, e);
      if found.None? || !b.payments[found.value].verified || b.payments[found.value].tenant.None? then []
      else [Entry(b.payments[found.value].tenant.value, Credit, b.payments[found.value].credits, PaymentEventRef(e))]
    case Held(r) => if r < |b.reservations| then ReservationEntries(b.reservations[r], r) else []
    case Sold(k) =>
      if k < |b.sales| && b.sales[k].publisher < |b.publishers| then SaleEntries(b, b.sales[k], k) else []
  }

  /** What a ledger row did to its tenant's two balances. */
  function AvailableEffect(t: nat): LedgerRow -> int {
    (row: LedgerRow) => if row.entry.tenant == t && row.entry.kind != Charge then row.entry.amount else 0
  }

  function ReservedEffect(t: nat): LedgerRow -> int {
    (row: LedgerRow) =>
      if row.entry.tenant != t then 0
      else match row.entry.kind
        case Reserve => -row.entry.amount
        case Refund => -row.entry.amount
        case Charge => row.entry.amount
        case _ => 0
  }

  ghost predicate Folded(b: Books, t: nat)
    requires t < |b.wallets|
  {
    && b.wallets[t].available >= 0
    && b.wallets[t].available == Sum(b.ledger, AvailableEffect(t))
    && b.wallets[t].reserved == Sum(b.ledger, ReservedEffect(t))
    && b.wallets[t].reserved == Sum(b.reservations, OpenAmount(t))
  }

  function VerifiedCredits(): PaymentEvent -> int {
    (p: PaymentEvent) => if p.verified then p.credits else 0
  }

  function HeldCredits(): Wallet -> int {
    (w: Wallet) => w.available + w.reserved
  }

  function SettledCredits(): Reservation -> int {
    (r: Reservation) => r.settled
  }

  function PlatformCredits(): Sale -> int {
    (s: Sale) => s.platformCredits
  }

  ghost predicate Conserved(b: Books) {
    Sum(b.payments, VerifiedCredits())
    == Sum(b.wallets, HeldCredits()) + Sum(b.reservations, SettledCredits()) + Sum(b.sales, PlatformCredits())
  }

  function KindEffect(t: nat, kind: Kind): LedgerRow -> int {
    (row: LedgerRow) => if row.entry.tenant == t && row.entry.kind == kind then row.entry.amount else 0
  }

  function BoughtBy(t: nat): Sale -> int {
    (s: Sale) => if s.buyer == t then s.gross else 0
  }

  function SoldBy(publishers: seq<Publisher>, t: nat): Sale -> int {
    (s: Sale) => if s.publisher < |publishers| && publishers[s.publisher].tenant == t then s.publisherCredits else 0
  }

  ghost predicate MarketTotals(b: Books, t: nat) {
    && Sum(b.ledger, KindEffect(t, MarketplaceCharge)) == -Sum(b.sales, BoughtBy(t))
    && Sum(b.ledger, KindEffect(t, MarketplaceEarning)) == Sum(b.sales, SoldBy(b.publishers, t))
  }

  function SettledSince(t: nat, month: int): Reservation -> int {
    (r: Reservation) => if r.tenant == t && r.createdAt >= month then r.settled else 0
  }

  /** The ledger's spend since a date covers every charge on a run admitted since then. */
  ghost predicate SpendCovers(b: Books, t: nat, month: int) {
    Sum(b.ledger, SpentSince(t, month)) >= Sum(b.reservations, SettledSince(t, month))
  }

  ghost predicate ReservationOk(r: Reservation, id: nat, wallets: nat, now: nat) {
    && r.run == id
    && r.tenant < wallets
    && r.amount > 0
    && r.createdAt <= now
    && r.expiresAt == r.createdAt + RESERVATION_SECONDS
    && 0 <= r.settled <= r.amount
    && (r.status != Settled ==> r.settled == 0)
  }

  ghost predicate SaleOk(b: Books, s: Sale) {
    && s.publisher < |b.publishers|
    && s.buyer < |b.wallets|
    && s.gross > 0 && s.publisherCredits >= 0 && s.platformCredits >= 0
    && s.publisherCredits + s.platformCredits == s.gross
    && b.publishers[s.publisher].tenant != s.buyer
  }

  ghost predicate RowsOk(b: Books, now: nat) {
    && (forall r :: 0 <= r < |b.reservations| ==> ReservationOk(b.reservations[r], r, |b.wallets|, now))
    && (forall i, j :: 0 <= i < j < |b.payments| ==> b.payments[i].id != b.payments[j].id)
    && (forall p :: p in b.payments && p.verified ==> p.tenant.Some? && p.tenant.value < |b.wallets| && p.credits > 0)
    && (forall p :: p in b.publishers ==> p.tenant < |b.wallets|)
    && (forall i, j :: 0 <= i < j < |b.publishers| ==> b.publishers[i].tenant != b.publishers[j].tenant)
    && (forall s :: s in b.sales ==> SaleOk(b, s))
    && (forall i, j :: 0 <= i < j < |b.sales| ==>
                       (b.sales[i].buyer, b.sales[i].key) != (b.sales[j].buyer, b.sales[j].key))
    && (forall i :: 0 <= i < |b.ledger| ==> b.ledger[i].entry.tenant < |b.wallets| && b.ledger[i].createdAt <= now)
  }

  ghost predicate Exact(b: Books) {
    forall s :: Posted(b.ledger, s) == Expected(b, s)
  }

  ghost predicate AllFolded(b: Books) {
    forall t :: 0 <= t < |b.wallets| ==> Folded(b, t)
  }

  ghost predicate AllMarketTotals(b: Books) {
    forall t: nat :: MarketTotals(b, t)
  }

  ghost predicate AllSpendCovers(b: Books) {
    forall t: nat, month: int :: SpendCovers(b, t, month)
  }

  ghost predicate BooksOk(b: Books, now: nat) {
    && RowsOk(b, now)
    && Exact(b)
    && AllFolded(b)
    && Conserved(b)
    && AllMarketTotals(b)
    && AllSpendCovers(b)
  }

  // ----- one posting -----

  function Matching(entries: seq<Entry>, s: Subject): seq<Entry> {
    if |entries| == 0 then []
    else Matching(entries[..|entries| - 1], s)
         + if SubjectOf(entries[|entries| - 1].reference) == s then [entries[|entries| - 1]] else []
  }

  lemma {:induction false} PostedPost(b: Books, entries: seq<Entry>, now: nat, s: Subject)
    ensures Posted(Post(b.ledger, entries, now), s) == Posted(b.ledger, s) + Matching(entries, s)
    decreases |entries|
  {
    var n := |entries|;
    if n == 0 {
      assert Post(b.ledger, entries, now) == b.ledger;
    } else {
      assert Post(b.ledger, entries, now)[..|b.ledger| + n - 1] == Post(b.ledger, entries[..n - 1], now);
      PostedPost(b, entries[..n - 1], now, s);
    }
  }

  lemma SumPost(b: Books, entries: seq<Entry>, now: nat, f: LedgerRow -> int)
    ensures |entries| == 0 ==> Sum(Post(b.ledger, entries, now), f) == Sum(b.ledger, f)
    ensures |entries| == 1 ==> Sum(Post(b.ledger, entries, now), f) == Sum(b.ledger, f) + f(LedgerRow(entries[0], now))
    ensures |entries| == 2 ==> Sum(Post(b.ledger, entries, now), f)
                               == Sum(b.ledger, f) + f(LedgerRow(entries[0], now)) + f(LedgerRow(entries[1], now))
  {
    var rows := seq(|entries|, i requires 0 <= i < |entries| => LedgerRow(entries[i], now));
    SumConcat(b.ledger, rows, f);
    SumShort(rows, f);
  }

  // ----- settlement and refund -----

  /** The closing of an open reservation; a settlement of nothing posts what a refund posts. */
  ghost predicate Closes(b: Books, b': Books, id: nat, charge: int, status: ReservationStatus, now: nat) {
    && id < |b.reservations|
    && var r := b.reservations[id];
    && r.status == Open && r.tenant < |b.wallets|
    && 0 <= charge <= r.amount
    && (status == Settled || (status == Refunded && charge == 0))
    && var w := b.wallets[r.tenant];
    && b' == b.(
               wallets := b.wallets[r.tenant :=
                            Wallet(w.available + r.amount - charge, w.reserved - r.amount, w.version + 1)],
               reservations := b.reservations[id := r.(status := status, settled := charge)],
               ledger := Post(b.ledger, ChargeEntries(r, charge) + RefundEntries(r, id, r.amount - charge), now))
  }

  lemma SettleCloses(b: Books, run: nat, charge: int, now: nat)
    requires RowsOk(b, now)
    ensures var result := SettleRun(b, run, charge, now);
            if run >= |b.reservations| then result == RolledBack(NotFound)
            else if b.reservations[run].status != Open then result == RolledBack(ReservationNotOpen)
            else if charge < 0 || charge > b.reservations[run].amount
            then result == RolledBack(ChargeExceedsReservation)
            else result.Committed? && Closes(b, result.value, run, charge, Settled, now)
  {
    assert run < |b.reservations| ==> ReservationOk(b.reservations[run], run, |b.wallets|, now);
  }

  lemma RefundCloses(b: Books, run: nat, now: nat)
    requires RowsOk(b, now)
    ensures var result := RefundRun(b, run, now);
            && result.Committed?
            && if run >= |b.reservations| || b.reservations[run].status != Open then result.value == b
               else Closes(b, result.value, run, 0, Refunded, now)
  {
    if run < |b.reservations| {
      var r := b.reservations[run];
      assert ReservationOk(r, run, |b.wallets|, now);
      assert ChargeEntries(r, 0) + RefundEntries(r, run, r.amount)
          == [Entry(r.tenant, Refund, r.amount, ReservationRef(run))];
      assert r.(settled := 0) == r || r.status != Open;
    }
  }

  lemma CloseKeepsRows(b: Books, b': Books, id: nat, charge: int, status: ReservationStatus, now: nat)
    requires RowsOk(b, now) && Closes(b, b', id, charge, status, now)
    ensures RowsOk(b', now)
  {
    assert ReservationOk(b.reservations[id], id, |b.wallets|, now);
    forall s | s in b'.sales ensures SaleOk(b', s) {
      assert SaleOk(b, s);
    }
  }

  function ClosingEntries(r: Reservation, id: nat, charge: int): seq<Entry> {
    ChargeEntries(r, charge) + RefundEntries(r, id, r.amount - charge)
  }

  lemma ClosingReferences(r: Reservation, id: nat, charge: int)
    requires r.run == id
    ensures forall e :: e in ClosingEntries(r, id, charge) ==> SubjectOf(e.reference) == Held(id)
  {
  }

  lemma CloseExpected(b: Books, b': Books, id: nat, charge: int, status: ReservationStatus, now: nat, s: Subject)
    requires Closes(b, b', id, charge, status, now) && b.reservations[id].run == id && b.reservations[id].amount > 0
    ensures Expected(b', s)
         == Expected(b, s) + if s == Held(id) then ClosingEntries(b.reservations[id], id, charge) else []
  {
    var r := b.reservations[id];
    assert b'.reservations[id] == r.(status := status, settled := charge);
    if s == Held(id) {
      assert Expected(b, s) == [Entry(r.tenant, Reserve, -r.amount, ReservationRef(id))];
      if status == Refunded {
        assert ClosingEntries(r, id, charge) == [Entry(r.tenant, Refund, r.amount, ReservationRef(id))];
      }
    }
  }

  lemma CloseKeepsExact(b: Books, b': Books, id: nat, charge: int, status: ReservationStatus, now: nat)
    requires Exact(b) && Closes(b, b', id, charge, status, now) && b.reservations[id].run == id
    requires b.reservations[id].amount > 0
    ensures Exact(b')
  {
    var entries := ClosingEntries(b.reservations[id], id, charge);
    ClosingReferences(b.reservations[id], id, charge);
    forall s ensures Posted(b'.ledger, s) == Expected(b', s) {
      PostedPost(b, entries, now, s);
      MatchingOwn(entries, s, Held(id));
      CloseExpected(b, b', id, charge, status, now, s);
    }
  }

  lemma {:induction false} MatchingOwn(entries: seq<Entry>, s: Subject, own: Subject)
    requires forall e :: e in entries ==> SubjectOf(e.reference) == own
    ensures Matching(entries, s) == if s == own then entries else []
    decreases |entries|
  {
    if |entries| > 0 {
      MatchingOwn(entries[..|entries| - 1], s, own);
      assert entries[|entries| - 1] in entries;
    }
  }

  lemma CloseKeepsFolds(b: Books, b': Books, id: nat, charge: int, status: ReservationStatus, now: nat)
    requires AllFolded(b) && Closes(b, b', id, charge, status, now)
    ensures AllFolded(b')
  {
    forall t | 0 <= t < |b'.wallets| ensures Folded(b', t) {
      assert Folded(b, t);
      CloseKeepsFold(b, b', id, charge, status, now, t);
    }
  }

  lemma CloseKeepsFold(b: Books, b': Books, id: nat, charge: int, status: ReservationStatus, now: nat, t: nat)
    requires Closes(b, b', id, charge, status, now) && t < |b.wallets| && Folded(b, t)
    ensures Folded(b', t)
  {
    var entries := ClosingEntries(b.reservations[id], id, charge);
    SumPost(b, entries, now, AvailableEffect(t));
    SumPost(b, entries, now, ReservedEffect(t));
    SumUpdate(b.reservations, id, b'.reservations[id], OpenAmount(t));
  }

  lemma CloseConserves(b: Books, b': Books, id: nat, charge: int, status: ReservationStatus, now: nat)
    requires Conserved(b) && Closes(b, b', id, charge, status, now) && b.reservations[id].settled == 0
    ensures Conserved(b')
  {
    var r := b.reservations[id];
    SumUpdate(b.wallets, r.tenant, b'.wallets[r.tenant], HeldCredits());
    SumUpdate(b.reservations, id, b'.reservations[id], SettledCredits());
  }

  lemma CloseKeepsTotals(b: Books, b': Books, id: nat, charge: int, status: ReservationStatus, now: nat)
    requires AllMarketTotals(b) && AllSpendCovers(b)
    requires Closes(b, b', id, charge, status, now) && b.reservations[id].settled == 0
    requires b.reservations[id].createdAt <= now
    ensures AllMarketTotals(b') && AllSpendCovers(b')
  {
    hide Closes, MarketTotals, SpendCovers;
    forall t: nat ensures MarketTotals(b', t) {
      assert MarketTotals(b, t);
      CloseKeepsMarketTotals(b, b', id, charge, status, now, t);
    }
    forall t: nat, month: int ensures SpendCovers(b', t, month) {
      assert SpendCovers(b, t, month);
      CloseKeepsSpendCovers(b, b', id, charge, status, now, t, month);
    }
  }

  lemma CloseKeepsMarketTotals(b: Books, b': Books, id: nat, charge: int, status: ReservationStatus, now: nat, t: nat)
    requires MarketTotals(b, t) && Closes(b, b', id, charge, status, now)
    ensures MarketTotals(b', t)
  {
    hide Post;
    var entries := ClosingEntries(b.reservations[id], id, charge);
    SumPost(b, entries, now, KindEffect(t, MarketplaceCharge));
    SumPost(b, entries, now, KindEffect(t, MarketplaceEarning));
  }

  lemma CloseKeepsSpendCovers(b: Books, b': Books, id: nat, charge: int, status: ReservationStatus, now: nat,
                              t: nat, month: int)
    requires SpendCovers(b, t, month) && Closes(b, b', id, charge, status, now)
    requires b.reservations[id].settled == 0 && b.reservations[id].createdAt <= now
    ensures SpendCovers(b', t, month)
  {
    hide Post;
    SumPost(b, ClosingEntries(b.reservations[id], id, charge), now, SpentSince(t, month));
    SumUpdate(b.reservations, id, b'.reservations[id], SettledSince(t, month));
  }

  lemma CloseKeeps(b: Books, b': Books, id: nat, charge: int, status: ReservationStatus, now: nat)
    requires BooksOk(b, now) && Closes(b, b', id, charge, status, now)
    ensures BooksOk(b', now)
  {
    assert ReservationOk(b.reservations[id], id, |b.wallets|, now);
    CloseKeepsRows(b, b', id, charge, status, now);
    CloseConserves(b, b', id, charge, status, now);
    CloseKeepsExact(b, b', id, charge, status, now);
    CloseKeepsFolds(b, b', id, charge, status, now);
    CloseKeepsTotals(b, b', id, charge, status, now);
  }

  lemma SettleKeeps(b: Books, run: nat, charge: int, now: nat)
    requires BooksOk(b, now)
    ensures var result := SettleRun(b, run, charge, now); result.Committed? ==> BooksOk(result.value, now)
  {
    SettleCloses(b, run, charge, now);
    var result := SettleRun(b, run, charge, now);
    if result.Committed? {
      CloseKeeps(b, result.value, run, charge, Settled, now);
    }
  }

  lemma RefundKeeps(b: Books, run: nat, now: nat)
    requires BooksOk(b, now)
    ensures var result := RefundRun(b, run, now); result.Committed? && BooksOk(result.value, now)
  {
    RefundCloses(b, run, now);
    var result := RefundRun(b, run, now);
    if result.value != b {
      CloseKeeps(b, result.value, run, 0, Refunded, now);
    }
  }

  // ----- admission -----

  lemma HoldKeepsFolds(b: Books, t: nat, amount: int, now: nat)
    requires AllFolded(b) && t < |b.wallets| && 0 < amount <= b.wallets[t].available
    ensures AllFolded(Hold(b, t, |b.reservations|, amount, now))
  {
    var run := |b.reservations|;
    var b' := Hold(b, t, run, amount, now);
    forall u | 0 <= u < |b'.wallets| ensures Folded(b', u) {
      assert Folded(b, u);
      SumPost(b, [Entry(t, Reserve, -amount, ReservationRef(run))], now, AvailableEffect(u));
      SumPost(b, [Entry(t, Reserve, -amount, ReservationRef(run))], now, ReservedEffect(u));
      SumAppend(b.reservations, b'.reservations[run], OpenAmount(u));
    }
  }

  lemma HoldKeepsTotals(b: Books, t: nat, amount: int, now: nat)
    requires Conserved(b) && AllMarketTotals(b) && AllSpendCovers(b) && t < |b.wallets|
    requires 0 < amount <= b.wallets[t].available
    ensures var b' := Hold(b, t, |b.reservations|, amount, now);
            Conserved(b') && AllMarketTotals(b') && AllSpendCovers(b')
  {
    var run := |b.reservations|;
    var b' := Hold(b, t, run, amount, now);
    var entries := [Entry(t, Reserve, -amount, ReservationRef(run))];
    SumUpdate(b.wallets, t, b'.wallets[t], HeldCredits());
    SumAppend(b.reservations, b'.reservations[run], SettledCredits());
    forall u: nat ensures MarketTotals(b', u) {
      assert MarketTotals(b, u);
      SumPost(b, entries, now, KindEffect(u, MarketplaceCharge));
      SumPost(b, entries, now, KindEffect(u, MarketplaceEarning));
    }
    forall u: nat, month: int ensures SpendCovers(b', u, month) {
      assert SpendCovers(b, u, month);
      SumPost(b, entries, now, SpentSince(u, month));
      SumAppend(b.reservations, b'.reservations[run], SettledSince(u, month));
    }
  }

  lemma HoldKeepsExact(b: Books, t: nat, amount: int, now: nat)
    requires Exact(b) && t < |b.wallets|
    ensures Exact(Hold(b, t, |b.reservations|, amount, now))
  {
    hide Expected, Post;
    var run := |b.reservations|;
    var b' := Hold(b, t, run, amount, now);
    var entries := [Entry(t, Reserve, -amount, ReservationRef(run))];
    forall s ensures Posted(b'.ledger, s) == Expected(b', s) {
      PostedPost(b, entries, now, s);
      assert Posted(b.ledger, s) == Expected(b, s);
      MatchingOwn(entries, s, Held(run));
      HoldExpected(b, t, amount, now, s);
    }
  }

  lemma HoldExpected(b: Books, t: nat, amount: int, now: nat, s: Subject)
    requires t < |b.wallets|
    ensures Expected(Hold(b, t, |b.reservations|, amount, now), s)
         == Expected(b, s)
            + if s == Held(|b.reservations|) then [Entry(t, Reserve, -amount, ReservationRef(|b.reservations|))] else []
  {
    hide Post;
  }

  lemma HoldKeeps(b: Books, t: nat, amount: int, now: nat)
    requires BooksOk(b, now) && t < |b.wallets| && 0 < amount <= b.wallets[t].available
    ensures BooksOk(Hold(b, t, |b.reservations|, amount, now), now)
  {
    HoldKeepsExact(b, t, amount, now);
    HoldKeepsFolds(b, t, amount, now);
    HoldKeepsTotals(b, t, amount, now);
    assert RowsOk(Hold(b, t, |b.reservations|, amount, now), now) by {
      var b' := Hold(b, t, |b.reservations|, amount, now);
      forall s | s in b'.sales ensures SaleOk(b', s) {
        assert SaleOk(b, s);
      }
    }
  }

  // ----- payments -----

  lemma FindPaymentAppend(payments: seq<PaymentEvent>, p: PaymentEvent, id: string)
    ensures FindPayment(payments + [p], id)
         == if FindPayment(payments, id).Some? then FindPayment(payments, id)
            else if p.id == id then Some(|payments|) else None
  {
    assert (payments + [p])[..|payments|] == payments;
  }

  lemma PaymentKeepsFolds(b: Books, p: PaymentEvent, now: nat)
    requires AllFolded(b)
    ensures var result := ProcessPayment(b, p, now); result.Committed? ==> AllFolded(result.value.0)
  {
    var result := ProcessPayment(b, p, now);
    if result.Committed? {
      var b' := result.value.0;
      forall t | 0 <= t < |b'.wallets| ensures Folded(b', t) {
        assert Folded(b, t);
        if result.value.1 && p.verified {
          var entries := [Entry(p.tenant.value, Credit, p.credits, PaymentEventRef(p.id))];
          SumPost(b, entries, now, AvailableEffect(t));
          SumPost(b, entries, now, ReservedEffect(t));
        }
      }
    }
  }

  lemma PaymentKeepsTotals(b: Books, p: PaymentEvent, now: nat)
    requires Conserved(b) && AllMarketTotals(b) && AllSpendCovers(b)
    ensures var result := ProcessPayment(b, p, now);
            result.Committed? ==> var b' := result.value.0; Conserved(b') && AllMarketTotals(b') && AllSpendCovers(b')
  {
    var result := ProcessPayment(b, p, now);
    if result.Committed? && result.value.1 {
      var b' := result.value.0;
      SumAppend(b.payments, p, VerifiedCredits());
      var entries := if p.verified then [Entry(p.tenant.value, Credit, p.credits, PaymentEventRef(p.id))] else [];
      assert b'.ledger == Post(b.ledger, entries, now);
      if p.verified {
        SumUpdate(b.wallets, p.tenant.value, b'.wallets[p.tenant.value], HeldCredits());
      }
      forall t: nat ensures MarketTotals(b', t) {
        assert MarketTotals(b, t);
        SumPost(b, entries, now, KindEffect(t, MarketplaceCharge));
        SumPost(b, entries, now, KindEffect(t, MarketplaceEarning));
      }
      forall t: nat, month: int ensures SpendCovers(b', t, month) {
        assert SpendCovers(b, t, month);
        SumPost(b, entries, now, SpentSince(t, month));
      }
    }
  }

  lemma PaymentKeepsExact(b: Books, p: PaymentEvent, now: nat)
    requires Exact(b)
    ensures var result := ProcessPayment(b, p, now); result.Committed? ==> Exact(result.value.0)
  {
    var result := ProcessPayment(b, p, now);
    if result.Committed? && result.value.1 {
      var b' := result.value.0;
      var entries := if p.verified then [Entry(p.tenant.value, Credit, p.credits, PaymentEventRef(p.id))] else [];
      assert b'.ledger == Post(b.ledger, entries, now);
      forall s ensures Posted(b'.ledger, s) == Expected(b', s) {
        PostedPost(b, entries, now, s);
        assert Posted(b.ledger, s) == Expected(b, s);
        MatchingOwn(entries, s, Payment(p.id));
        if s.Payment? {
          FindPaymentAppend(b.payments, p, s.event);
        }
      }
    }
  }

  lemma PaymentKeepsRows(b: Books, p: PaymentEvent, now: nat)
    requires RowsOk(b, now)
    ensures var result := ProcessPayment(b, p, now); result.Committed? ==> RowsOk(result.value.0, now)
  {
    var result := ProcessPayment(b, p, now);
    if result.Committed? && result.value.1 {
      var b' := result.value.0;
      forall s | s in b'.sales ensures SaleOk(b', s) {
        assert SaleOk(b, s);
      }
    }
  }

  lemma PaymentKeeps(b: Books, p: PaymentEvent, now: nat)
    requires BooksOk(b, now)
    ensures var result := ProcessPayment(b, p, now); result.Committed? ==> BooksOk(result.value.0, now)
  {
    hide RowsOk, Exact, AllFolded, Conserved, AllMarketTotals, AllSpendCovers, ProcessPayment;
    PaymentKeepsRows(b, p, now);
    PaymentKeepsExact(b, p, now);
    PaymentKeepsFolds(b, p, now);
    PaymentKeepsTotals(b, p, now);
  }

  // ----- marketplace -----

  /** The sale purchase_listing records, once every check has passed. */
  ghost predicate Sellable(b: Books, s: Sale) {
    && SaleOk(b, s)
    && b.publishers[s.publisher].tenant < |b.wallets|
    && s.gross <= b.wallets[s.buyer].available
    && FindSale(b, s.buyer, s.key).None?
  }

  lemma SaleKeepsFolds(b: Books, s: Sale, now: nat)
    requires AllFolded(b) && Sellable(b, s)
    ensures AllFolded(RecordSale(b, s, now))
  {
    var b' := RecordSale(b, s, now);
    var entries := SaleEntries(b, s, |b.sales|);
    forall t | 0 <= t < |b'.wallets| ensures Folded(b', t) {
      assert Folded(b, t);
      SumPost(b, entries, now, AvailableEffect(t));
      SumPost(b, entries, now, ReservedEffect(t));
    }
  }

  lemma SaleConserves(b: Books, s: Sale, now: nat)
    requires Conserved(b) && Sellable(b, s)
    ensures Conserved(RecordSale(b, s, now))
  {
    var b' := RecordSale(b, s, now);
    var buyer := b.wallets[s.buyer];
    var p := b.publishers[s.publisher].tenant;
    var charged := b.wallets[s.buyer := Wallet(buyer.available - s.gross, buyer.reserved, buyer.version + 1)];
    SumUpdate(b.wallets, s.buyer, charged[s.buyer], HeldCredits());
    SumUpdate(charged, p, b'.wallets[p], HeldCredits());
    SumAppend(b.sales, s, PlatformCredits());
  }

  lemma SaleKeepsTotals(b: Books, s: Sale, now: nat)
    requires AllMarketTotals(b) && Sellable(b, s)
    ensures AllMarketTotals(RecordSale(b, s, now))
  {
    forall t: nat ensures MarketTotals(RecordSale(b, s, now), t) {
      assert MarketTotals(b, t);
      SaleKeepsTotal(b, s, now, t);
    }
  }

  lemma SaleKeepsTotal(b: Books, s: Sale, now: nat, t: nat)
    requires MarketTotals(b, t) && Sellable(b, s)
    ensures MarketTotals(RecordSale(b, s, now), t)
  {
    var entries := SaleEntries(b, s, |b.sales|);
    SumPost(b, entries, now, KindEffect(t, MarketplaceCharge));
    SumPost(b, entries, now, KindEffect(t, MarketplaceEarning));
    SumAppend(b.sales, s, BoughtBy(t));
    SumAppend(b.sales, s, SoldBy(b.publishers, t));
  }

  lemma SaleKeepsSpend(b: Books, s: Sale, now: nat)
    requires AllSpendCovers(b) && Sellable(b, s)
    ensures AllSpendCovers(RecordSale(b, s, now))
  {
    var b' := RecordSale(b, s, now);
    forall t: nat, month: int ensures SpendCovers(b', t, month) {
      assert SpendCovers(b, t, month);
      SumPost(b, SaleEntries(b, s, |b.sales|), now, SpentSince(t, month));
    }
  }

  lemma SaleReferences(b: Books, s: Sale, id: nat)
    requires s.publisher < |b.publishers|
    ensures forall e :: e in SaleEntries(b, s, id) ==> SubjectOf(e.reference) == Sold(id)
  {
  }

  lemma SaleExpected(b: Books, b': Books, s: Sale, x: Subject)
    requires b'.publishers == b.publishers && b'.payments == b.payments && b'.reservations == b.reservations
    requires b'.sales == b.sales + [s] && s.publisher < |b.publishers|
    ensures Expected(b', x) == Expected(b, x) + if x == Sold(|b.sales|) then SaleEntries(b, s, |b.sales|) else []
  {
  }

  lemma SaleKeepsExact(b: Books, s: Sale, now: nat)
    requires Exact(b) && Sellable(b, s)
    ensures Exact(RecordSale(b, s, now))
  {
    var b' := RecordSale(b, s, now);
    var id := |b.sales|;
    var entries := SaleEntries(b, s, id);
    SaleReferences(b, s, id);
    forall x ensures Posted(b'.ledger, x) == Expected(b', x) {
      PostedPost(b, entries, now, x);
      MatchingOwn(entries, x, Sold(id));
      SaleExpected(b, b', s, x);
    }
  }

  lemma SaleKeepsRows(b: Books, s: Sale, now: nat)
    requires RowsOk(b, now) && Sellable(b, s)
    ensures RowsOk(RecordSale(b, s, now), now)
  {
    var b' := RecordSale(b, s, now);
    forall x | x in b'.sales ensures SaleOk(b', x) {
      assert x == s || SaleOk(b, x);
    }
  }

  lemma SaleKeeps(b: Books, s: Sale, now: nat)
    requires BooksOk(b, now) && Sellable(b, s)
    ensures BooksOk(RecordSale(b, s, now), now)
  {
    hide RowsOk, Exact, AllFolded, Conserved, AllMarketTotals, AllSpendCovers, Sellable, RecordSale;
    SaleKeepsRows(b, s, now);
    SaleKeepsExact(b, s, now);
    SaleKeepsFolds(b, s, now);
    SaleConserves(b, s, now);
    SaleKeepsTotals(b, s, now);
    SaleKeepsSpend(b, s, now);
  }

  lemma PublisherKeeps(b: Books, t: nat, now: nat)
    requires BooksOk(b, now)
    ensures var result := UpsertPublisher(b, t); result.Committed? ==> BooksOk(result.value, now)
  {
    var result := UpsertPublisher(b, t);
    if result.Committed? && result.value != b {
      var b' := result.value;
      forall s ensures Posted(b'.ledger, s) == Expected(b', s) {
        assert Posted(b.ledger, s) == Expected(b, s);
        if s.Sold? && s.sale < |b.sales| {
          assert SaleOk(b, b.sales[s.sale]);
        }
      }
      forall s | s in b'.sales ensures SaleOk(b', s) {
        assert SaleOk(b, s);
      }
      forall u | 0 <= u < |b'.wallets| ensures Folded(b', u) {
        assert Folded(b, u);
      }
      forall u: nat ensures MarketTotals(b', u) {
        assert MarketTotals(b, u);
        forall i | 0 <= i < |b.sales|
          ensures SoldBy(b.publishers, u)(b.sales[i]) == SoldBy(b'.publishers, u)(b.sales[i])
        {
          assert SaleOk(b, b.sales[i]);
        }
        SumSame(b.sales, SoldBy(b.publishers, u), SoldBy(b'.publishers, u));
      }
      forall u: nat, month: int ensures SpendCovers(b', u, month) {
        assert SpendCovers(b, u, month);
      }
    }
  }

  // ----- a new tenant, and the clock -----

  lemma WalletKeeps(b: Books, now: nat)
    requires BooksOk(b, now)
    ensures BooksOk(AddWallet(b), now)
  {
    var b' := AddWallet(b);
    var n := |b.wallets|;
    SumAppend(b.wallets, Wallet(0, 0, 0), HeldCredits());
    forall s ensures Posted(b'.ledger, s) == Expected(b', s) {
      assert Posted(b.ledger, s) == Expected(b, s);
    }
    forall s | s in b'.sales ensures SaleOk(b', s) {
      assert SaleOk(b, s);
    }
    forall t | 0 <= t < |b'.wallets| ensures Folded(b', t) {
      if t < n {
        assert Folded(b, t);
      } else {
        SumZero(b.ledger, AvailableEffect(n));
        SumZero(b.ledger, ReservedEffect(n));
        SumZero(b.reservations, OpenAmount(n));
      }
    }
    forall t: nat ensures MarketTotals(b', t) {
      assert MarketTotals(b, t);
    }
    forall t: nat, month: int ensures SpendCovers(b', t, month) {
      assert SpendCovers(b, t, month);
    }
  }

  lemma ClockKeeps(b: Books, now: nat, later: nat)
    requires BooksOk(b, now) && now <= later
    ensures BooksOk(b, later)
  {
    forall r | 0 <= r < |b.reservations| ensures ReservationOk(b.reservations[r], r, |b.wallets|, later) {
      assert ReservationOk(b.reservations[r], r, |b.wallets|, now);
    }
  }
}
