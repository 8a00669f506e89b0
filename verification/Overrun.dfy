/** When the month's spend passes the credit limit. Admission compares the whole spend, purchases and
    charges of earlier months' runs included, with the limit (zomega/commercial.py:147-162), but
    neither a purchase nor a settlement looks at it. */
module Overrun {
  import opened Rows
  import opened Tables
  import opened Pricing
  import opened Billing
  import opened Marketplace
  import opened Admission
  import opened RunBlocks
  import opened BooksInvariant
  import opened Transactions
  import opened Consistency
  import opened Quota

  /** The price of a sale this transaction makes to the tenant; None if it makes none. */
  function Bought(db: DB, txn: Txn, t: nat): Option<int> {
    if txn.Buy? && txn.buyer == t
       && PurchaseListing(db, t, txn.listing, txn.purchaseKey).Committed?
       && !PurchaseListing(db, t, txn.listing, txn.purchaseKey).value.1.replayed
       && txn.listing < |db.listings|
    then Some(db.listings[txn.listing].price) else None
  }

  /** The charge this transaction settles on a run the tenant started in an earlier month. */
  function CarriedOver(db: DB, txn: Txn, t: nat): Option<int> {
    if txn.SettleTxn? && txn.run < |db.books.reservations|
       && db.books.reservations[txn.run].tenant == t
       && db.books.reservations[txn.run].createdAt < db.monthStart
       && SettleRun(db.books, txn.run, txn.charge, db.now).Committed?
    then Some(txn.charge) else None
  }

  /** A purchase or a carried-over settlement that asks for more than the limit leaves. */
  predicate Overruns(db: DB, txn: Txn, t: nat, limit: int) {
    || (Bought(db, txn, t).Some? && Bought(db, txn, t).value > limit - MonthSpend(db, t))
    || (CarriedOver(db, txn, t).Some? && CarriedOver(db, txn, t).value > limit - MonthSpend(db, t))
  }

  function Spend(b: Books, t: nat, month: int): int {
    Sum(b.ledger, SpentSince(t, month)) + Sum(b.reservations, OpenSince(t, month))
  }

  // ----- what each transaction adds -----

  /** Closing a hold swaps it for its charge, if it was counted at all. */
  lemma CloseSpend(b: Books, b': Books, id: nat, charge: int, status: ReservationStatus, now: nat, t: nat, month: int)
    requires Closes(b, b', id, charge, status, now) && month <= now
    ensures var r := b.reservations[id];
            Spend(b', t, month) == Spend(b, t, month)
                                   + if r.tenant != t then 0
                                     else if r.createdAt >= month then charge - r.amount
                                     else charge
  {
    hide Post;
    SumPost(b, ClosingEntries(b.reservations[id], id, charge), now, SpentSince(t, month));
    SumUpdate(b.reservations, id, b'.reservations[id], OpenSince(t, month));
  }

  lemma SettleSpend(db: DB, run: nat, charge: int, t: nat, limit: int)
    requires RowsOk(db.books, db.now) && db.monthStart <= db.now && MonthSpend(db, t) <= limit
    ensures var db' := WithBooks(db, SettleRun(db.books, run, charge, db.now));
            MonthSpend(db', t) > limit <==> Overruns(db, SettleTxn(run, charge), t, limit)
  {
    SettleCloses(db.books, run, charge, db.now);
    var result := SettleRun(db.books, run, charge, db.now);
    if result.Committed? {
      hide SettleRun;
      CloseSpend(db.books, result.value, run, charge, Settled, db.now, t, db.monthStart);
    }
  }

  lemma RefundSpend(db: DB, run: nat, t: nat)
    requires RowsOk(db.books, db.now) && db.monthStart <= db.now
    ensures MonthSpend(WithBooks(db, RefundRun(db.books, run, db.now)), t) <= MonthSpend(db, t)
  {
    RefundCloses(db.books, run, db.now);
    var result := RefundRun(db.books, run, db.now);
    if result.value != db.books {
      hide RefundRun;
      CloseSpend(db.books, result.value, run, 0, Refunded, db.now, t, db.monthStart);
      assert ReservationOk(db.books.reservations[run], run, |db.books.wallets|, db.now);
    }
  }

  lemma SaleSpend(b: Books, s: Sale, now: nat, t: nat, month: int)
    requires s.publisher < |b.publishers|
    requires s.buyer < |b.wallets| && b.publishers[s.publisher].tenant < |b.wallets|
    requires month <= now
    ensures Sum(RecordSale(b, s, now).ledger, SpentSince(t, month))
         == Sum(b.ledger, SpentSince(t, month)) + if s.buyer == t then s.gross else 0
  {
    SumPost(b, SaleEntries(b, s, |b.sales|), now, SpentSince(t, month));
  }

  lemma PurchaseSpend(db: DB, buyer: nat, listing: nat, key: string, db': DB, t: nat)
    requires db.monthStart <= db.now
    requires PurchaseListing(db, buyer, listing, key) == Committed((db', Purchase(|db.books.sales|, false)))
    ensures MonthSpend(db', t) == MonthSpend(db, t) + if buyer == t then db.listings[listing].price else 0
  {
    var b := db.books;
    var sale := db'.books.sales[|b.sales|];
    assert db'.books == RecordSale(b, sale, db.now);
    SaleSpend(b, sale, db.now, t, db.monthStart);
  }

  lemma BuySpend(c: Catalog, db: DB, txn: Txn, t: nat, limit: int)
    requires db.monthStart <= db.now && txn.Buy? && MonthSpend(db, t) <= limit
    ensures MonthSpend(Apply(c, db, txn), t) > limit <==> Overruns(db, txn, t, limit)
  {
    var result := PurchaseListing(db, txn.buyer, txn.listing, txn.purchaseKey);
    if result.Committed? && !result.value.1.replayed {
      hide RecordSale, MonthSpend;
      PurchaseSpend(db, txn.buyer, txn.listing, txn.purchaseKey, result.value.0, t);
    }
  }

  lemma AdmissionSpend(db: DB, q: Request, t: nat, limit: int)
    requires t in db.controls && db.controls[t].monthlyCreditLimit == Some(limit) && MonthSpend(db, t) <= limit
    ensures CreateRun(db, q).Committed? ==> MonthSpend(CreateRun(db, q).value.0, t) <= limit
  {
    hide Post;
    var result := CreateRun(db, q);
    if result.Committed? && !result.value.1.replayed {
      var b, b' := db.books, result.value.0.books;
      SumPost(b, [Entry(q.tenant, Reserve, -q.fingerprint.reservation, ReservationRef(|b.reservations|))], db.now,
              SpentSince(t, db.monthStart));
      SumAppend(b.reservations, b'.reservations[|b.reservations|], OpenSince(t, db.monthStart));
    }
  }

  lemma PaymentSpend(db: DB, p: PaymentEvent, t: nat)
    ensures var result := ProcessPayment(db.books, p, db.now);
            result.Committed? ==> Spend(result.value.0, t, db.monthStart) == Spend(db.books, t, db.monthStart)
  {
    hide Post, FindPayment;
    if p.tenant.Some? {
      SumPost(db.books, [Entry(p.tenant.value, Credit, p.credits, PaymentEventRef(p.id))], db.now,
              SpentSince(t, db.monthStart));
    }
  }

  lemma TickSpend(c: Catalog, db: DB, now: nat, monthStart: nat, t: nat)
    requires RowsOk(db.books, db.now)
    ensures var db' := Apply(c, db, Tick(now, monthStart));
            MonthSpend(db', t) == if db'.monthStart == db.monthStart then MonthSpend(db, t) else 0
  {
    var b, db' := db.books, Apply(c, db, Tick(now, monthStart));
    if db'.monthStart != db.monthStart {
      forall r | 0 <= r < |b.reservations| ensures OpenSince(t, monthStart)(b.reservations[r]) == 0 {
        assert ReservationOk(b.reservations[r], r, |b.wallets|, db.now);
      }
      SumZero(b.ledger, SpentSince(t, monthStart));
      SumZero(b.reservations, OpenSince(t, monthStart));
    }
  }

  lemma OthersSpendNothing(c: Catalog, db: DB, txn: Txn)
    requires !txn.SettleTxn? && !txn.RefundTxn? && !txn.Buy? && !txn.Deliver? && !txn.Tick? && !txn.AdmitAgent?
    requires !txn.AdmitSkill?
    ensures var db' := Apply(c, db, txn);
            && db'.books.ledger == db.books.ledger && db'.books.reservations == db.books.reservations
            && db'.monthStart == db.monthStart
  {
    hide HasInFlight, FindPublisher, Backoff, FindEvent, ValidControl, Closed, FindPendingEvent;
    hide SettleRun, RefundRun, PurchaseListing, ProcessPayment, CreateRun, RequestOf, Stamped;
  }

  // ----- the exact condition -----

  predicate Limited(db: DB, t: nat, limit: int) {
    t in db.controls && db.controls[t].monthlyCreditLimit == Some(limit)
  }

  /** Nothing but a purchase or a settlement can pass the limit. */
  lemma QuietTxnsStayWithin(c: Catalog, db: DB, txn: Txn, t: nat, limit: int)
    requires RowsOk(db.books, db.now) && db.monthStart <= db.now && limit > 0
    requires Limited(db, t, limit) && MonthSpend(db, t) <= limit
    requires !txn.SettleTxn? && !txn.Buy?
    ensures MonthSpend(Apply(c, db, txn), t) <= limit && !Overruns(db, txn, t, limit)
  {
    hide RowsOk, RequestOf, CreateRun, RefundRun, ProcessPayment;
    match txn
    case RefundTxn(run) => RefundSpend(db, run, t);
    case Deliver(p) => PaymentSpend(db, p, t);
    case Tick(now, monthStart) => TickSpend(c, db, now, monthStart, t);
    case AdmitAgent(_, _, _, _, _) =>
      if RequestOf(c, txn).Committed? {
        AdmissionSpend(db, RequestOf(c, txn).value, t, limit);
      }
    case AdmitSkill(_, _, _, _, _) =>
      if RequestOf(c, txn).Committed? {
        AdmissionSpend(db, RequestOf(c, txn).value, t, limit);
      }
    case _ => SameSpend(c, db, txn, t);
  }

  lemma SameSpend(c: Catalog, db: DB, txn: Txn, t: nat)
    requires !txn.SettleTxn? && !txn.RefundTxn? && !txn.Buy? && !txn.Deliver? && !txn.Tick? && !txn.AdmitAgent?
    requires !txn.AdmitSkill?
    ensures MonthSpend(Apply(c, db, txn), t) == MonthSpend(db, t)
  {
    hide Apply;
    OthersSpendNothing(c, db, txn);
  }

  /** A tenant's spend passes its limit in one transaction exactly when that transaction overruns it. */
  lemma OverrunsExactlyWhen(c: Catalog, db: DB, txn: Txn, t: nat, limit: int)
    requires Consistent(db) && Limited(db, t, limit) && MonthSpend(db, t) <= limit
    requires !(txn.SetControl? && txn.tenant == t)
    ensures MonthSpend(Apply(c, db, txn), t) > limit <==> Overruns(db, txn, t, limit)
  {
    SpendIsWellFormed(db, t);
    hide Consistent, RowsOk, MonthSpend, PurchaseListing, SettleRun, Limited, Overruns;
    if txn.Buy? {
      BuySpend(c, db, txn, t, limit);
    } else if txn.SettleTxn? {
      SettleSpend(db, txn.run, txn.charge, t, limit);
    } else {
      QuietTxnsStayWithin(c, db, txn, t, limit);
    }
  }

  lemma SpendIsWellFormed(db: DB, t: nat)
    requires Consistent(db)
    ensures RowsOk(db.books, db.now) && db.monthStart <= db.now
    ensures t in db.controls && db.controls[t].monthlyCreditLimit.Some? ==> db.controls[t].monthlyCreditLimit.value > 0
  {
    assert t in db.controls ==> ValidControl(db, t, db.controls[t]);
  }

  lemma LimitStays(c: Catalog, db: DB, txn: Txn, t: nat, limit: int)
    requires Limited(db, t, limit) && !(txn.SetControl? && txn.tenant == t)
    ensures Limited(Apply(c, db, txn), t, limit)
  {
    hide HasInFlight, FindPublisher, Backoff, FindEvent, ValidControl, Closed, RequestOf, AdmissionError;
    hide Post, FindPayment, FindSale;
  }

  /** The spend after each prefix of a history. */
  predicate StaysWithin(c: Catalog, db: DB, history: seq<Txn>, t: nat, limit: int) {
    forall n :: 0 <= n <= |history| ==> MonthSpend(Replayed(c, db, history[..n]), t) <= limit
  }

  predicate NoneOverruns(c: Catalog, db: DB, history: seq<Txn>, t: nat, limit: int) {
    forall n :: 0 <= n < |history| ==> !Overruns(Replayed(c, db, history[..n]), history[n], t, limit)
  }

  /** Over a whole history, months included, a tenant's spend never passes its limit exactly when no
      purchase and no carried-over settlement in it asks for more than the limit leaves. */
  lemma {:induction false} SpendStaysWithin(c: Catalog, db: DB, history: seq<Txn>, t: nat, limit: int)
    requires Consistent(db) && Limited(db, t, limit) && MonthSpend(db, t) <= limit
    requires forall txn :: txn in history ==> !(txn.SetControl? && txn.tenant == t)
    ensures Limited(Replayed(c, db, history), t, limit)
    ensures StaysWithin(c, db, history, t, limit) <==> NoneOverruns(c, db, history, t, limit)
    decreases |history|
  {
    hide Consistent, MonthSpend, Overruns, Apply, Limited;
    assert history[..|history|] == history;
    if |history| == 0 {
      assert history[..0] == [];
    } else {
      var front, last := history[..|history| - 1], history[|history| - 1];
      var before := Replayed(c, db, front);
      SpendStaysWithin(c, db, front, t, limit);
      HistoryKeeps(c, db, front);
      LimitStays(c, before, last, t, limit);
      assert forall n :: 0 <= n <= |front| ==> front[..n] == history[..n];
      assert front[..|front|] == front;
      if MonthSpend(before, t) <= limit {
        OverrunsExactlyWhen(c, before, last, t, limit);
      }
    }
  }
}
