/** The data invariant of the whole database, kept by every transaction with any arguments, and
    what it means: reconciliation, constraints, conservation, marketplace accounting. */
module Consistency {
  import opened Rows
  import opened Tables
  import opened Pricing
  import opened Billing
  import opened Marketplace
  import opened Admission
  import opened RunBlocks
  import opened BooksInvariant
  import opened Transactions

  /** The columns of a run that nothing rewrites. */
  function Identity(r: Run): (nat, Fingerprint, nat) {
    (r.tenant, Fingerprint(r.agent, r.skill, r.payload, r.maxSpend), r.createdAt)
  }

  /** One reservation and one RUN_REQUESTED event for each run. */
  ghost predicate Aligned(db: DB) {
    && |db.runs| == |db.books.reservations| == |db.outbox|
    && (forall r :: 0 <= r < |db.runs| ==>
                      && db.outbox[r].run == r
                      && db.books.reservations[r].amount == db.runs[r].maxSpend
                      && db.books.reservations[r].tenant == db.runs[r].tenant
                      && db.books.reservations[r].createdAt == db.runs[r].createdAt)
  }

  ghost predicate MarketOk(db: DB) {
    && (forall v :: v in db.versions ==> v.publisher < |db.books.publishers|)
    && (forall l :: l in db.listings ==> l.version < |db.versions| && l.price > 0 && 0 <= l.shareBps <= 10000)
    && (forall i, j :: 0 <= i < j < |db.listings| ==> db.listings[i].version != db.listings[j].version)
    && (forall k :: 0 <= k < |db.books.sales| ==> SaleMatches(db, db.books.sales[k]))
  }

  /** A sale follows its listing, and its buyer holds the grant. */
  ghost predicate SaleMatches(db: DB, s: Sale) {
    && s.listing < |db.listings|
    && var l := db.listings[s.listing];
    && s.gross == l.price
    && s.publisherCredits == PublisherShare(l.price, l.shareBps)
    && l.version < |db.versions|
    && s.publisher == db.versions[l.version].publisher
    && (s.buyer, l.version) in db.grants
  }

  ghost predicate KeysOk(db: DB) {
    forall k :: k in db.idempotency ==>
                  && var rec := db.idempotency[k];
                  && k.1 != ""
                  && rec.run < |db.runs|
                  && Identity(db.runs[rec.run]).0 == k.0
                  && Identity(db.runs[rec.run]).1 == rec.fingerprint
  }

  ghost predicate ControlsOk(db: DB) {
    && db.monthStart <= db.now
    && forall t :: t in db.controls ==> ValidControl(db, t, db.controls[t])
  }

  ghost predicate Consistent(db: DB) {
    && BooksOk(db.books, db.now)
    && Aligned(db)
    && MarketOk(db)
    && KeysOk(db)
    && ControlsOk(db)
  }

  lemma RowsOfConsistent(db: DB)
    requires Consistent(db)
    ensures RowsOk(db.books, db.now) && Aligned(db)
  {
  }

  lemma EmptyIsConsistent(now: nat, monthStart: nat)
    requires monthStart <= now
    ensures Consistent(EmptyDB(now, monthStart))
  {
  }

  /** PublisherShare splits a price into two parts; the publisher loses less than one credit to rounding. */
  lemma ShareSplits(price: int, shareBps: int)
    requires price > 0 && 0 <= shareBps <= 10000
    ensures 0 <= PublisherShare(price, shareBps) <= price
    ensures 10000 * PublisherShare(price, shareBps) <= price * shareBps < 10000 * (PublisherShare(price, shareBps) + 1)
  {
    var p := price * shareBps;
    MultiplyMonotone(0, price, shareBps);
    MultiplyMonotone(shareBps, 10000, price);
  }

  const NO_CATALOG: Catalog := Catalog(map[], map[], 0)

  /** A block that rewrites only the changing columns of runs, events, checkpoints and usage. */
  ghost predicate OnlyRuns(db: DB, db': DB) {
    && db' == db.(runs := db'.runs, outbox := db'.outbox, executions := db'.executions, usage := db'.usage)
    && |db'.runs| == |db.runs| && |db'.outbox| == |db.outbox|
    && (forall r :: 0 <= r < |db.runs| ==> Identity(db'.runs[r]) == Identity(db.runs[r]))
    && (forall r :: 0 <= r < |db.outbox| ==> db'.outbox[r].run == db.outbox[r].run)
  }

  lemma OnlyRunsKeeps(db: DB, db': DB)
    requires Consistent(db) && OnlyRuns(db, db')
    ensures Consistent(db')
  {
    hide BooksOk;
    forall r | 0 <= r < |db'.runs|
      ensures db'.books.reservations[r].amount == db'.runs[r].maxSpend
      ensures db'.books.reservations[r].tenant == db'.runs[r].tenant
      ensures db'.books.reservations[r].createdAt == db'.runs[r].createdAt
    {
      assert Identity(db'.runs[r]) == Identity(db.runs[r]);
    }
    forall k | k in db'.idempotency
      ensures db'.idempotency[k].run < |db'.runs|
      ensures Identity(db'.runs[db'.idempotency[k].run]) == Identity(db.runs[db'.idempotency[k].run])
    {
    }
    forall k | 0 <= k < |db'.books.sales| ensures SaleMatches(db', db'.books.sales[k]) {
      assert SaleMatches(db, db.books.sales[k]);
    }
  }

  /** A block that rewrites the books but no reservation's terms, publisher or sale. */
  lemma OnlyBooksKeeps(db: DB, b': Books)
    requires Consistent(db) && BooksOk(b', db.now)
    requires |b'.wallets| >= |db.books.wallets|
    requires |b'.publishers| >= |db.books.publishers|
    requires b'.sales == db.books.sales
    requires |b'.reservations| == |db.books.reservations|
    requires forall r :: 0 <= r < |b'.reservations| ==>
                           && b'.reservations[r].amount == db.books.reservations[r].amount
                           && b'.reservations[r].tenant == db.books.reservations[r].tenant
                           && b'.reservations[r].createdAt == db.books.reservations[r].createdAt
    ensures Consistent(db.(books := b'))
  {
    hide BooksOk;
    var db' := db.(books := b');
    forall k | 0 <= k < |b'.sales| ensures SaleMatches(db', b'.sales[k]) {
      assert SaleMatches(db, db.books.sales[k]);
    }
    forall t | t in db'.controls ensures ValidControl(db', t, db'.controls[t]) {
      assert ValidControl(db, t, db.controls[t]);
    }
  }

  lemma AdmissionKeeps(db: DB, q: Request)
    requires Consistent(db)
    ensures var result := CreateRun(db, q); result.Committed? ==> Consistent(result.value.0)
  {
    hide BooksOk;
    var result := CreateRun(db, q);
    if result.Committed? && !result.value.1.replayed {
      var db' := Insert(db, q);
      HoldKeeps(db.books, q.tenant, q.fingerprint.reservation, db.now);
      forall k | 0 <= k < |db'.books.sales| ensures SaleMatches(db', db'.books.sales[k]) {
        assert SaleMatches(db, db.books.sales[k]);
      }
      forall t | t in db'.controls ensures ValidControl(db', t, db'.controls[t]) {
        assert ValidControl(db, t, db.controls[t]);
      }
    }
  }

  lemma PurchaseKeeps(db: DB, buyer: nat, listing: nat, key: string)
    requires Consistent(db)
    ensures var result := PurchaseListing(db, buyer, listing, key); result.Committed? ==> Consistent(result.value.0)
  {
    hide BooksOk;
    var result := PurchaseListing(db, buyer, listing, key);
    if result.Committed? && !result.value.1.replayed {
      var db' := result.value.0;
      var l := db.listings[listing];
      assert l in db.listings;
      ShareSplits(l.price, l.shareBps);
      var publisher := db.versions[l.version].publisher;
      var share := PublisherShare(l.price, l.shareBps);
      var sale := Sale(buyer, publisher, listing, key, l.price, share, l.price - share);
      assert db.books.publishers[publisher] in db.books.publishers;
      SaleKeeps(db.books, sale, db.now);
      forall k | 0 <= k < |db'.books.sales| ensures SaleMatches(db', db'.books.sales[k]) {
        assert k < |db.books.sales| ==> SaleMatches(db, db.books.sales[k]);
      }
      forall t | t in db'.controls ensures ValidControl(db', t, db'.controls[t]) {
        assert ValidControl(db, t, db.controls[t]);
      }
    }
  }

  /** A block that changes the clock, limits or catalogue tables, and drops none of their rows. */
  lemma CatalogueKeeps(db: DB, db': DB)
    requires Consistent(db)
    requires db' == db.(versions := db'.versions, listings := db'.listings, controls := db'.controls,
                     now := db'.now, monthStart := db'.monthStart)
    requires db.versions <= db'.versions && db.listings <= db'.listings && db.now <= db'.now
    requires (forall v :: v in db'.versions ==> v.publisher < |db.books.publishers|)
    requires (forall l :: l in db'.listings ==> l.version < |db'.versions| && l.price > 0 && 0 <= l.shareBps <= 10000)
    requires (forall i, j :: 0 <= i < j < |db'.listings| ==> db'.listings[i].version != db'.listings[j].version)
    requires ControlsOk(db')
    ensures Consistent(db')
  {
    hide BooksOk;
    ClockKeeps(db.books, db.now, db'.now);
    forall k | 0 <= k < |db'.books.sales| ensures SaleMatches(db', db'.books.sales[k]) {
      assert SaleMatches(db, db.books.sales[k]);
    }
  }

  lemma SetControlKeeps(c: Catalog, db: DB, t: nat, control: Control)
    requires Consistent(db)
    ensures Consistent(Apply(c, db, SetControl(t, control)))
  {
    hide BooksOk;
    var db' := Apply(c, db, SetControl(t, control));
    forall u | u in db'.controls ensures ValidControl(db', u, db'.controls[u]) {
      assert u in db.controls ==> ValidControl(db, u, db.controls[u]);
    }
    CatalogueKeeps(db, db');
  }

  lemma TickKeeps(c: Catalog, db: DB, now: nat, monthStart: nat)
    requires Consistent(db)
    ensures Consistent(Apply(c, db, Tick(now, monthStart)))
  {
    hide BooksOk;
    var db' := Apply(c, db, Tick(now, monthStart));
    forall u | u in db'.controls ensures ValidControl(db', u, db'.controls[u]) {
      assert ValidControl(db, u, db.controls[u]);
    }
    CatalogueKeeps(db, db');
  }

  lemma PublishKeeps(c: Catalog, db: DB, t: nat)
    requires Consistent(db)
    ensures Consistent(Apply(c, db, Publish(t)))
  {
    hide BooksOk;
    var db' := Apply(c, db, Publish(t));
    forall u | u in db'.controls ensures ValidControl(db', u, db'.controls[u]) {
      assert ValidControl(db, u, db.controls[u]);
    }
    CatalogueKeeps(db, db');
  }

  lemma ListKeeps(c: Catalog, db: DB, t: nat, version: nat, price: int, shareBps: int)
    requires Consistent(db)
    ensures Consistent(Apply(c, db, List(t, version, price, shareBps)))
  {
    hide BooksOk;
    var db' := Apply(c, db, List(t, version, price, shareBps));
    forall u | u in db'.controls ensures ValidControl(db', u, db'.controls[u]) {
      assert ValidControl(db, u, db.controls[u]);
    }
    CatalogueKeeps(db, db');
  }

  lemma PaymentTxnKeeps(c: Catalog, db: DB, p: PaymentEvent)
    requires Consistent(db)
    ensures Consistent(Apply(c, db, Deliver(p)))
  {
    hide BooksOk;
    PaymentKeeps(db.books, p, db.now);
    var result := ProcessPayment(db.books, p, db.now);
    if result.Committed? {
      OnlyBooksKeeps(db, result.value.0);
    }
  }

  lemma SettleTxnKeeps(c: Catalog, db: DB, run: nat, charge: int)
    requires Consistent(db)
    ensures Consistent(Apply(c, db, SettleTxn(run, charge)))
  {
    hide RowsOk, Exact, AllFolded, Conserved, AllMarketTotals, AllSpendCovers;
    SettleKeeps(db.books, run, charge, db.now);
    SettleCloses(db.books, run, charge, db.now);
    var result := SettleRun(db.books, run, charge, db.now);
    if result.Committed? {
      OnlyBooksKeeps(db, result.value);
    }
  }

  lemma RefundTxnKeeps(c: Catalog, db: DB, run: nat)
    requires Consistent(db)
    ensures Consistent(Apply(c, db, RefundTxn(run)))
  {
    hide RowsOk, Exact, AllFolded, Conserved, AllMarketTotals, AllSpendCovers;
    RefundKeeps(db.books, run, db.now);
    RefundCloses(db.books, run, db.now);
    OnlyBooksKeeps(db, RefundRun(db.books, run, db.now).value);
  }

  lemma PublisherTxnKeeps(c: Catalog, db: DB, t: nat)
    requires Consistent(db)
    ensures Consistent(Apply(c, db, RegisterPublisher(t)))
  {
    hide RowsOk, Exact, AllFolded, Conserved, AllMarketTotals, AllSpendCovers;
    PublisherKeeps(db.books, t, db.now);
    var result := UpsertPublisher(db.books, t);
    if result.Committed? {
      OnlyBooksKeeps(db, result.value);
    }
  }

  lemma BeginKeeps(c: Catalog, db: DB, run: nat)
    ensures OnlyRuns(db, Apply(c, db, BeginRun(run)))
  {
  }

  lemma CheckpointsKeep(c: Catalog, db: DB, run: nat, k: nat, skill: string, answer: Answer, charge: int)
    ensures OnlyRuns(db, Apply(c, db, PrepareStep(run, k, skill)))
    ensures OnlyRuns(db, Apply(c, db, RecordStep(run, k, answer, charge)))
  {
  }

  lemma CloseTxnKeeps(c: Catalog, db: DB, run: nat, w: Closing)
    ensures OnlyRuns(db, Apply(c, db, CloseTxn(run, w)))
  {
  }

  lemma CancelKeeps(c: Catalog, db: DB, run: nat, tenant: nat)
    ensures OnlyRuns(db, Apply(c, db, CancelTxn(run, tenant)))
    ensures OnlyRuns(db, Apply(c, db, ExpireTxn(run)))
  {
  }

  lemma OutboxKeeps(c: Catalog, db: DB, run: nat)
    ensures OnlyRuns(db, Apply(c, db, DispatchedTxn(run)))
    ensures OnlyRuns(db, Apply(c, db, DispatchFailedTxn(run)))
  {
  }

  /** Every transaction, whatever its arguments, keeps the database consistent. */
  lemma ApplyKeeps(c: Catalog, db: DB, txn: Txn)
    requires Consistent(db)
    ensures Consistent(Apply(c, db, txn))
  {
    hide BooksOk, OnlyRuns;
    match txn
    case CreateTenant =>
      WalletKeeps(db.books, db.now);
      OnlyBooksKeeps(db, AddWallet(db.books));
    case Deliver(p) => PaymentTxnKeeps(c, db, p);
    case AdmitAgent(_, _, _, _, _) =>
      if RequestOf(c, txn).Committed? {
        AdmissionKeeps(db, RequestOf(c, txn).value);
      }
    case AdmitSkill(_, _, _, _, _) =>
      if RequestOf(c, txn).Committed? {
        AdmissionKeeps(db, RequestOf(c, txn).value);
      }
    case Buy(buyer, listing, key) => PurchaseKeeps(db, buyer, listing, key);
    case RegisterPublisher(t) => PublisherTxnKeeps(c, db, t);
    case Publish(t) => PublishKeeps(c, db, t);
    case List(t, version, price, shareBps) => ListKeeps(c, db, t, version, price, shareBps);
    case SetControl(t, control) => SetControlKeeps(c, db, t, control);
    case Tick(now, monthStart) => TickKeeps(c, db, now, monthStart);
    case SettleTxn(run, charge) => SettleTxnKeeps(c, db, run, charge);
    case RefundTxn(run) => RefundTxnKeeps(c, db, run);
    case BeginRun(run) => BeginKeeps(c, db, run); OnlyRunsKeeps(db, Apply(c, db, txn));
    case PrepareStep(run, k, skill) =>
      CheckpointsKeep(c, db, run, k, skill, Answer("", "", 0, 0), 0);
      OnlyRunsKeeps(db, Apply(c, db, txn));
    case RecordStep(run, k, answer, charge) =>
      CheckpointsKeep(c, db, run, k, "", answer, charge);
      OnlyRunsKeeps(db, Apply(c, db, txn));
    case CloseTxn(run, w) => CloseTxnKeeps(c, db, run, w); OnlyRunsKeeps(db, Apply(c, db, txn));
    case CancelTxn(run, tenant) => CancelKeeps(c, db, run, tenant); OnlyRunsKeeps(db, Apply(c, db, txn));
    case ExpireTxn(run) => CancelKeeps(c, db, run, 0); OnlyRunsKeeps(db, Apply(c, db, txn));
    case DispatchFailedTxn(run) => OutboxKeeps(c, db, run); OnlyRunsKeeps(db, Apply(c, db, txn));
    case DispatchedTxn(run) => OutboxKeeps(c, db, run); OnlyRunsKeeps(db, Apply(c, db, txn));
    case ReadOnly =>
  }

  /** Safety over whole histories, crashes included. */
  lemma {:induction false} HistoryKeeps(c: Catalog, db: DB, history: seq<Txn>)
    requires Consistent(db)
    ensures Consistent(Replayed(c, db, history))
    decreases |history|
  {
    if |history| > 0 {
      HistoryKeeps(c, db, history[..|history| - 1]);
      ApplyKeeps(c, Replayed(c, db, history[..|history| - 1]), history[|history| - 1]);
    }
  }

  // ----- what consistency means -----

  /** reconcile_wallet reports ok for every tenant, with open reservations that add up to the reserved balance and
      a ledger that nets to both balances together. */
  lemma Reconciles(db: DB, t: nat)
    requires Consistent(db) && t < |db.books.wallets|
    ensures var (r, w) := (ReconcileWallet(db.books, t), db.books.wallets[t]);
            && r.ok && r.openReserved == w.reserved
            && r.ledgerNet == r.observedTotal == w.available + w.reserved
  {
    var b := db.books;
    assert Folded(b, t);
    SumPlus(b.ledger, AvailableEffect(t), ReservedEffect(t), NetEffect(t));
    forall i | 0 <= i < |b.reservations| ensures OpenAmount(t)(b.reservations[i]) >= 0 {
      assert ReservationOk(b.reservations[i], i, |b.wallets|, db.now);
    }
    SumNonNegative(b.reservations, OpenAmount(t));
  }

  /** The sum of a tenant's ledger rows of one kind. */
  function OfKind(b: Books, t: nat, kind: Kind): int {
    Sum(b.ledger, KindEffect(t, kind))
  }

  lemma {:induction false} EffectsByKind(ledger: seq<LedgerRow>, t: nat)
    ensures Sum(ledger, AvailableEffect(t))
         == Sum(ledger, KindEffect(t, Credit)) + Sum(ledger, KindEffect(t, Reserve))
            + Sum(ledger, KindEffect(t, Refund))
            + Sum(ledger, KindEffect(t, MarketplaceCharge)) + Sum(ledger, KindEffect(t, MarketplaceEarning))
    ensures Sum(ledger, ReservedEffect(t))
         == -Sum(ledger, KindEffect(t, Reserve)) - Sum(ledger, KindEffect(t, Refund))
            + Sum(ledger, KindEffect(t, Charge))
  {
    if |ledger| > 0 {
      EffectsByKind(ledger[..|ledger| - 1], t);
    }
  }

  /** A wallet is a fold of its ledger. */
  lemma WalletFoldsLedger(db: DB, t: nat)
    requires Consistent(db) && t < |db.books.wallets|
    ensures db.books.wallets[t].available
         == OfKind(db.books, t, Credit) + OfKind(db.books, t, Reserve) + OfKind(db.books, t, Refund)
            + OfKind(db.books, t, MarketplaceCharge) + OfKind(db.books, t, MarketplaceEarning)
    ensures db.books.wallets[t].reserved
         == -OfKind(db.books, t, Reserve) - OfKind(db.books, t, Refund) + OfKind(db.books, t, Charge)
  {
    assert Folded(db.books, t);
    EffectsByKind(db.books.ledger, t);
  }

  lemma {:induction false} PostedAt(ledger: seq<LedgerRow>, i: nat, s: Subject) returns (at: nat)
    requires i < |ledger| && SubjectOf(ledger[i].entry.reference) == s
    ensures at == |Posted(ledger[..i], s)| < |Posted(ledger, s)| && Posted(ledger, s)[at] == ledger[i].entry
    decreases |ledger|
  {
    var n := |ledger| - 1;
    if i == n {
      at := |Posted(ledger[..n], s)|;
    } else {
      assert ledger[..n][..i] == ledger[..i];
      at := PostedAt(ledger[..n], i, s);
    }
  }

  /** A subject's rows carry non-zero amounts and pairwise different keys. */
  lemma ExpectedIsKeyed(b: Books, now: nat, s: Subject)
    requires RowsOk(b, now)
    ensures forall e :: e in Expected(b, s) ==> e.amount != 0
    ensures forall i, j :: 0 <= i < j < |Expected(b, s)| ==> Key(Expected(b, s)[i]) != Key(Expected(b, s)[j])
  {
    match s
    case Payment(e) =>
      var found := FindPayment(b.payments, e);
      assert found.Some? ==> b.payments[found.value] in b.payments;
    case Held(r) =>
      assert r < |b.reservations| ==> ReservationOk(b.reservations[r], r, |b.wallets|, now);
    case Sold(k) =>
      assert k < |b.sales| ==> b.sales[k] in b.sales && SaleOk(b, b.sales[k]);
  }

  lemma LedgerKeysDiffer(b: Books, now: nat, i: nat, j: nat)
    requires RowsOk(b, now) && Exact(b) && i < j < |b.ledger|
    ensures Key(b.ledger[i].entry) != Key(b.ledger[j].entry)
  {
    var s := SubjectOf(b.ledger[i].entry.reference);
    if b.ledger[i].entry.reference == b.ledger[j].entry.reference {
      var p := PostedAt(b.ledger, i, s);
      var q := PostedAt(b.ledger, j, s);
      assert b.ledger[..j][..i] == b.ledger[..i];
      var p' := PostedAt(b.ledger[..j], i, s);
      assert Posted(b.ledger, s) == Expected(b, s);
      ExpectedIsKeyed(b, now, s);
    }
  }

  /** No check or unique constraint of the money tables is ever violated. */
  lemma ConstraintsAlwaysHold(db: DB)
    requires Consistent(db)
    ensures ConstraintsHold(db.books)
  {
    var b := db.books;
    forall t | 0 <= t < |b.wallets| ensures b.wallets[t].available >= 0 && b.wallets[t].reserved >= 0 {
      Reconciles(db, t);
    }
    forall i | 0 <= i < |b.ledger| ensures b.ledger[i].entry.amount != 0 {
      var s := SubjectOf(b.ledger[i].entry.reference);
      var at := PostedAt(b.ledger, i, s);
      assert Posted(b.ledger, s) == Expected(b, s);
      ExpectedIsKeyed(b, db.now, s);
    }
    forall i, j | 0 <= i < j < |b.ledger| ensures Key(b.ledger[i].entry) != Key(b.ledger[j].entry) {
      LedgerKeysDiffer(b, db.now, i, j);
    }
    forall r | 0 <= r < |b.reservations| ensures ReservationOk(b.reservations[r], r, |b.wallets|, db.now) {
    }
    forall k | 0 <= k < |b.sales| ensures SaleOk(b, b.sales[k]) {
      assert b.sales[k] in b.sales;
    }
  }

  function HoldEntry(r: Reservation, id: nat): Entry {
    Entry(r.tenant, Reserve, -r.amount, ReservationRef(id))
  }

  /** The rows a run leaves in the ledger: its hold, then nothing while it is open; the whole
      refund if it was refunded; its charge and the unused part, zero rows omitted, if it was settled. */
  lemma RunLedgerRows(db: DB, r: nat, res: Reservation, charge: Entry, unused: Entry)
    requires Consistent(db) && r < |db.runs| && res == db.books.reservations[r]
    requires charge == Entry(res.tenant, Charge, -res.settled, RunRef(r))
    requires unused == Entry(res.tenant, Refund, res.amount - res.settled, ReservationRef(r))
    ensures Posted(db.books.ledger, Held(r)) == [HoldEntry(res, r)] +
                                               match res.status
                                               case Open => []
                                               case Refunded => [unused]
                                               case Settled =>
                                                 if res.settled == 0 then [unused]
                                                 else if res.settled == res.amount then [charge]
                                                 else [charge, unused]
  {
    hide AllFolded, Conserved, AllMarketTotals, AllSpendCovers, MarketOk, KeysOk, ControlsOk, Posted;
    assert ReservationOk(res, r, |db.books.wallets|, db.now);
    assert Posted(db.books.ledger, Held(r)) == Expected(db.books, Held(r));
  }

  /** A new tenant starts with an empty wallet, and nobody else notices. */
  lemma TenantStartsEmpty(c: Catalog, db: DB)
    ensures Apply(c, db, CreateTenant) == db.(books := db.books.(wallets := db.books.wallets + [Wallet(0, 0, 0)]))
  {
  }

  /** reconcile_wallet finds every drift: had a wallet of a consistent database any other balances, it would
      report them. */
  lemma DriftIsFound(db: DB, t: nat, available: int, reserved: int)
    requires Consistent(db) && t < |db.books.wallets|
    ensures var w := db.books.wallets[t];
            var drifted := db.books.(wallets := db.books.wallets[t := Wallet(available, reserved, w.version)]);
            ReconcileWallet(drifted, t).ok <==> available == w.available && reserved == w.reserved
  {
    Reconciles(db, t);
  }

  /** Credits bought and verified are all still held, were spent on runs, or went to the platform. */
  lemma CreditsAreConserved(c: Catalog, now: nat, monthStart: nat, history: seq<Txn>, b: Books)
    requires monthStart <= now
    requires b == Replayed(c, EmptyDB(now, monthStart), history).books
    ensures Sum(b.payments, VerifiedCredits())
         == Sum(b.wallets, HeldCredits()) + Sum(b.reservations, SettledCredits()) + Sum(b.sales, PlatformCredits())
  {
    EmptyIsConsistent(now, monthStart);
    HistoryKeeps(c, EmptyDB(now, monthStart), history);
  }

  /** What publisher_earnings reports is what the ledger paid the tenant, and a buyer's
      marketplace debits are its purchases. */
  lemma MarketplaceAccounts(db: DB, t: nat)
    requires Consistent(db)
    ensures PublisherEarnings(db.books, t) == Sum(db.books.ledger, KindEffect(t, MarketplaceEarning))
    ensures Sum(db.books.ledger, KindEffect(t, MarketplaceCharge)) == -Sum(db.books.sales, BoughtBy(t))
  {
    var b := db.books;
    assert MarketTotals(b, t);
    var p := FindPublisher(b, t);
    if p.None? {
      SumZero(b.sales, SoldBy(b.publishers, t));
    } else {
      forall i | 0 <= i < |b.sales|
        ensures PublisherCreditsOf(p.value)(b.sales[i]) == SoldBy(b.publishers, t)(b.sales[i])
      {
        assert SaleOk(b, b.sales[i]);
      }
      SumSame(b.sales, PublisherCreditsOf(p.value), SoldBy(b.publishers, t));
    }
  }

  /** Every sale splits its listing's price exactly, and its buyer holds the entitlement. */
  lemma SalesAreFair(db: DB, k: nat)
    requires Consistent(db) && k < |db.books.sales|
    ensures var s := db.books.sales[k];
            && s.listing < |db.listings|
            && var l := db.listings[s.listing];
            && s.publisherCredits >= 0 && s.platformCredits >= 0
            && s.publisherCredits + s.platformCredits == s.gross == l.price
            && 10000 * s.publisherCredits <= l.price * l.shareBps < 10000 * (s.publisherCredits + 1)
            && (s.buyer, l.version) in db.grants
  {
    var s := db.books.sales[k];
    assert SaleOk(db.books, s) && SaleMatches(db, s);
    var l := db.listings[s.listing];
    assert l in db.listings;
    ShareSplits(l.price, l.shareBps);
  }
}
