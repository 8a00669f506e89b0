/** Idempotent admission and purchase over whole histories. */
module Idempotency {
  import opened Rows
  import opened Tables
  import opened Pricing
  import opened Billing
  import opened Marketplace
  import opened Admission
  import opened RunBlocks
  import opened Transactions

  /** A call of either run endpoint by this tenant under this key. */
  predicate AdmitsWithKey(txn: Txn, t: nat, key: string) {
    (txn.AdmitAgent? || txn.AdmitSkill?) && txn.tenant == t && txn.key == Some(key)
  }

  /** A call's request carries its tenant, key, payload and what it asked to run. */
  lemma RequestCarries(c: Catalog, txn: Txn)
    requires RequestOf(c, txn).Committed?
    ensures var q := RequestOf(c, txn).value;
            && (txn.AdmitAgent? || txn.AdmitSkill?)
            && q.tenant == txn.tenant && q.key == txn.key && q.fingerprint.payload == txn.payload
            && (txn.AdmitAgent? ==> q.fingerprint.agent == txn.agent && q.fingerprint.skill == None)
            && (txn.AdmitSkill? ==> q.fingerprint.skill == Some(txn.skill))
  {
  }

  /** How many admissions under one key created a run (with its reservation, reserve row and event). */
  function Creations(c: Catalog, db: DB, history: seq<Txn>, t: nat, key: string): nat {
    if |history| == 0 then 0
    else
      var front := history[..|history| - 1];
      var before := Replayed(c, db, front);
      var last := history[|history| - 1];
      Creations(c, db, front, t, key)
      + if AdmitsWithKey(last, t, key) && |Apply(c, before, last).runs| > |before.runs| then 1 else 0
  }

  /** Everything a new admission writes: the hold in the wallet, the run, its reservation, reserve row and
      event, and the key's record if there is a key. */
  function Admitting(db: DB, q: Request): DB
    requires q.tenant < |db.books.wallets|
  {
    var (b, f, w, run) := (db.books, q.fingerprint, db.books.wallets[q.tenant], |db.runs|);
    var wallet := Wallet(w.available - f.reservation, w.reserved + f.reservation, w.version + 1);
    var held := Reservation(q.tenant, run, f.reservation, 0, Open, db.now, db.now + 7200);
    var row := LedgerRow(Entry(q.tenant, Reserve, -f.reservation, ReservationRef(|b.reservations|)), db.now);
    var created := Run(q.tenant, f.agent, f.skill, f.payload, f.reservation, db.now, PendingDispatch, None, 0, false,
                       None, None);
    db.(books := b.(wallets := b.wallets[q.tenant := wallet], reservations := b.reservations + [held],
                    ledger := b.ledger + [row]),
        runs := db.runs + [created],
        outbox := db.outbox + [OutboxEvent(run, false, 0, db.now)],
        idempotency := if Keyed(q) then db.idempotency[(q.tenant, q.key.value) := IdempotencyRecord(f, run)]
                       else db.idempotency)
  }

  /** What one keyed admission may do: create one run and all its rows and bind the key to it, or
      replay the bound run, or be refused; unless it creates, it changes nothing at all. */
  lemma KeyedAdmission(db: DB, q: Request)
    requires Keyed(q)
    ensures var key := (q.tenant, q.key.value);
            match CreateRun(db, q)
            case RolledBack(e) => key in db.idempotency <==> e == KeyReused
            case Committed((db', admitted)) =>
              if key in db.idempotency then
                && db' == db && admitted == Admitted(db.idempotency[key].run, true)
                && db.idempotency[key].fingerprint == q.fingerprint
              else
                && q.tenant < |db.books.wallets| && db' == Admitting(db, q) && admitted == Admitted(|db.runs|, false)
  {
  }

  /** Without a key every admission that commits creates a run. */
  lemma UnkeyedAdmission(db: DB, q: Request)
    requires !Keyed(q) && CreateRun(db, q).Committed?
    ensures q.tenant < |db.books.wallets| && CreateRun(db, q).value == (Admitting(db, q), Admitted(|db.runs|, false))
  {
    assert Insert(db, q).books.ledger == Admitting(db, q).books.ledger;
  }

  lemma AdmissionKeyChanges(c: Catalog, db: DB, txn: Txn, t: nat, key: string)
    requires key != "" && (txn.AdmitAgent? || txn.AdmitSkill?)
    ensures var db' := Apply(c, db, txn);
            && ((t, key) in db.idempotency ==>
                  (t, key) in db'.idempotency && db'.idempotency[(t, key)] == db.idempotency[(t, key)])
            && ((t, key) !in db.idempotency && (t, key) in db'.idempotency ==>
                  AdmitsWithKey(txn, t, key) && |db'.runs| > |db.runs|)
            && (AdmitsWithKey(txn, t, key) && |db'.runs| > |db.runs| ==>
                  (t, key) !in db.idempotency && (t, key) in db'.idempotency)
  {
    hide RequestOf, CreateRun;
    if RequestOf(c, txn).Committed? {
      RequestCarries(c, txn);
      var q := RequestOf(c, txn).value;
      if Keyed(q) {
        KeyedAdmission(db, q);
      } else if CreateRun(db, q).Committed? {
        UnkeyedAdmission(db, q);
      }
    }
  }

  /** No transaction rebinds or drops a key, and only an admission under a key can bind it. */
  lemma KeyChanges(c: Catalog, db: DB, txn: Txn, t: nat, key: string)
    requires key != ""
    ensures var db' := Apply(c, db, txn);
            && ((t, key) in db.idempotency ==>
                  (t, key) in db'.idempotency && db'.idempotency[(t, key)] == db.idempotency[(t, key)])
            && ((t, key) !in db.idempotency && (t, key) in db'.idempotency ==>
                  AdmitsWithKey(txn, t, key) && |db'.runs| > |db.runs|)
            && (AdmitsWithKey(txn, t, key) && |db'.runs| > |db.runs| ==>
                  (t, key) !in db.idempotency && (t, key) in db'.idempotency)
  {
    hide RequestOf, CreateRun, AdmitsWithKey;
    if txn.AdmitAgent? || txn.AdmitSkill? {
      AdmissionKeyChanges(c, db, txn, t, key);
    } else {
      OtherTxnsKeepKeys(c, db, txn);
    }
  }

  lemma OtherTxnsKeepKeys(c: Catalog, db: DB, txn: Txn)
    requires !txn.AdmitAgent? && !txn.AdmitSkill?
    ensures Apply(c, db, txn).idempotency == db.idempotency
  {
    hide SettleRun, RefundRun, ProcessPayment, UpsertPublisher, RecordSale, HasInFlight, FindSale, Backoff;
  }

  /** Under one key at most one run is ever created: exactly one if the key got bound. Once bound
      it stays bound to that run and request, so every later equal request replays that run and
      every different one is refused. A history that leaves the key unbound created nothing. */
  lemma {:induction false} OneRunPerKey(c: Catalog, db: DB, history: seq<Txn>, t: nat, key: string)
    requires key != ""
    ensures var db' := Replayed(c, db, history);
            && Creations(c, db, history, t, key)
            == (if (t, key) in db'.idempotency && (t, key) !in db.idempotency then 1 else 0)
            && ((t, key) in db.idempotency ==>
                  (t, key) in db'.idempotency && db'.idempotency[(t, key)] == db.idempotency[(t, key)])
    decreases |history|
  {
    if |history| > 0 {
      var front := history[..|history| - 1];
      OneRunPerKey(c, db, front, t, key);
      KeyChanges(c, Replayed(c, db, front), history[|history| - 1], t, key);
    }
  }

  /** The same request, repeated after any history, returns the first run and changes nothing;
      another request under its key is refused. */
  lemma RepeatedRequest(c: Catalog, db: DB, q: Request, history: seq<Txn>, later: Request)
    requires Keyed(q) && CreateRun(db, q).Committed?
    requires later.tenant == q.tenant && later.key == q.key
    ensures var first := CreateRun(db, q).value;
            var db' := Replayed(c, first.0, history);
            CreateRun(db', later) == if later.fingerprint == q.fingerprint
                                     then Committed((db', Admitted(first.1.run, true)))
                                     else RolledBack(KeyReused)
  {
    KeyedAdmission(db, q);
    OneRunPerKey(c, CreateRun(db, q).value.0, history, q.tenant, q.key.value);
  }

  /** A call under a key, once it has created a run, has done all that calls under this key will ever do: after
      any history a call by the same tenant under the same key, equal or not, changes nothing; an equal one
      returns the first run and one for anything else is refused. */
  lemma RepeatedAdmission(c: Catalog, db: DB, txn: Txn, t: nat, key: string, history: seq<Txn>, later: Txn)
    requires key != "" && AdmitsWithKey(txn, t, key) && AdmitsWithKey(later, t, key)
    requires |Apply(c, db, txn).runs| > |db.runs|
    ensures |Apply(c, db, txn).runs| == |db.runs| + 1
    ensures var db' := Replayed(c, Apply(c, db, txn), history);
            && Apply(c, db', later) == db'
            && Creations(c, Apply(c, db, txn), history, t, key) == 0
            && (later == txn ==>
                  && RequestOf(c, later).Committed?
                  && CreateRun(db', RequestOf(c, later).value) == Committed((db', Admitted(|db.runs|, true))))
            && (RequestOf(c, later).Committed? && later.payload != txn.payload ==>
                  CreateRun(db', RequestOf(c, later).value) == RolledBack(KeyReused))
  {
    hide RequestOf, CreateRun;
    RequestCarries(c, txn);
    var q := RequestOf(c, txn).value;
    KeyedAdmission(db, q);
    OneRunPerKey(c, Apply(c, db, txn), history, t, key);
    if RequestOf(c, later).Committed? {
      RequestCarries(c, later);
      RepeatedRequest(c, db, q, history, RequestOf(c, later).value);
    }
  }

  // ----- purchases -----

  lemma FindSaleAppend(b: Books, b': Books, buyer: nat, key: string)
    requires b.sales <= b'.sales && FindSale(b, buyer, key).Some?
    ensures FindSale(b', buyer, key) == FindSale(b, buyer, key)
    decreases |b'.sales|
  {
    var n := |b'.sales| - 1;
    if |b.sales| == |b'.sales| {
      assert b.sales == b'.sales;
    } else {
      FindSaleAppend(b, b'.(sales := b'.sales[..n]), buyer, key);
    }
  }

  lemma SalesGrow(c: Catalog, db: DB, txn: Txn)
    ensures db.books.sales <= Apply(c, db, txn).books.sales
  {
    hide Apply;
    if txn.Buy? {
      BuyAppends(c, db, txn);
    } else if txn.SettleTxn? || txn.RefundTxn? || txn.Deliver? || txn.AdmitAgent? || txn.AdmitSkill? {
      WalletTxnsSellNothing(c, db, txn);
    } else {
      OtherTxnsSellNothing(c, db, txn);
    }
  }

  lemma BuyAppends(c: Catalog, db: DB, txn: Txn)
    requires txn.Buy?
    ensures db.books.sales <= Apply(c, db, txn).books.sales
  {
    hide FindSale, Post;
  }

  lemma OtherTxnsSellNothing(c: Catalog, db: DB, txn: Txn)
    requires !txn.Buy? && !txn.SettleTxn? && !txn.RefundTxn? && !txn.Deliver? && !txn.AdmitAgent? && !txn.AdmitSkill?
    ensures Apply(c, db, txn).books.sales == db.books.sales
  {
    hide HasInFlight, Backoff, Stamped, ValidControl, Closed, FindEvent, FindPublisher, FindPendingEvent;
  }

  lemma WalletTxnsSellNothing(c: Catalog, db: DB, txn: Txn)
    requires txn.SettleTxn? || txn.RefundTxn? || txn.Deliver? || txn.AdmitAgent? || txn.AdmitSkill?
    ensures Apply(c, db, txn).books.sales == db.books.sales
  {
    hide RequestOf, AdmissionError, Post, FindReservation, FindPayment;
  }

  lemma {:induction false} HistorySalesGrow(c: Catalog, db: DB, history: seq<Txn>)
    ensures db.books.sales <= Replayed(c, db, history).books.sales
    decreases |history|
  {
    if |history| > 0 {
      HistorySalesGrow(c, db, history[..|history| - 1]);
      SalesGrow(c, Replayed(c, db, history[..|history| - 1]), history[|history| - 1]);
    }
  }

  /** A purchase key, once sold, replays the same sale after any history and moves no credit,
      whatever listing it is presented for. */
  lemma RepeatedPurchase(c: Catalog, db: DB, buyer: nat, listing: nat, key: string, history: seq<Txn>, other: nat)
    requires PurchaseListing(db, buyer, listing, key).Committed?
    ensures var first := PurchaseListing(db, buyer, listing, key).value;
            var db' := Replayed(c, first.0, history);
            PurchaseListing(db', buyer, other, key) == Committed((db', Purchase(first.1.sale, true)))
  {
    var first := PurchaseListing(db, buyer, listing, key).value;
    var b := first.0.books;
    if !first.1.replayed {
      assert b.sales[..|db.books.sales|] == db.books.sales;
    }
    assert FindSale(b, buyer, key) == Some(first.1.sale);
    HistorySalesGrow(c, first.0, history);
    FindSaleAppend(b, Replayed(c, first.0, history).books, buyer, key);
  }
}
