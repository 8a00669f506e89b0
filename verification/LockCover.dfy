/** What the locks of `Locks` are for: no block changes a row, or adds one under a unique key, without asking for
    its lock in a mode that no other writer of it can share. */
module LockCover {
  import opened Tables
  import opened Pricing
  import opened Billing
  import opened Marketplace
  import opened Admission
  import opened RunBlocks
  import opened Transactions
  import opened Locks

  /** The block itself asks for the lock, and not only to refer to the row. */
  ghost predicate LocksToWrite(plan: seq<Want>, l: Lock) {
    exists i :: 0 <= i < |plan| && plan[i].lock == l && !plan[i].nested && !plan[i].mode.KeyShare?
  }

  /** Two blocks that lock the same thing to write it wait for each other. */
  lemma WritersExclude(a: Want, b: Want)
    requires a.lock == b.lock && !a.mode.KeyShare? && !b.mode.KeyShare?
    ensures Clash(a, b) && Clash(b, a)
  {
  }

  ghost predicate MoneyLocked(db: DB, db': DB, plan: seq<Want>) {
    && (forall t: nat :: t < |db.books.wallets| ==>
                           t < |db'.books.wallets|
                           && (db'.books.wallets[t] != db.books.wallets[t] ==> LocksToWrite(plan, WalletLock(t))))
    && (forall r: nat :: r < |db.books.reservations| ==>
                           r < |db'.books.reservations|
                           && (db'.books.reservations[r] != db.books.reservations[r] ==>
                                 LocksToWrite(plan, ReservationLock(r))))
  }

  ghost predicate RunsLocked(db: DB, db': DB, plan: seq<Want>) {
    && (forall r: nat :: r < |db.runs| ==>
                           r < |db'.runs| && (db'.runs[r] != db.runs[r] ==> LocksToWrite(plan, RunLock(r))))
    && (forall e: nat :: e < |db.outbox| ==>
                           e < |db'.outbox|
                           && (db'.outbox[e] != db.outbox[e] ==> LocksToWrite(plan, OutboxLock(db.outbox[e].run))))
    && (forall k :: k in db'.executions && (k !in db.executions || db'.executions[k] != db.executions[k]) ==>
                      LocksToWrite(plan, ExecutionLock(k.0, k.1)))
    && (forall k :: k in db.executions ==> k in db'.executions)
  }

  ghost predicate KeysLocked(db: DB, db': DB, txn: Txn, plan: seq<Want>) {
    && (forall k :: k in db'.idempotency && (k !in db.idempotency || db'.idempotency[k] != db.idempotency[k]) ==>
                      LocksToWrite(plan, KeyLock(k.0, k.1)))
    && (db'.books.payments != db.books.payments ==> txn.Deliver? && LocksToWrite(plan, PaymentLock(txn.payment.id)))
    && (|db'.runs| > |db.runs| ==>
          (txn.AdmitAgent? || txn.AdmitSkill?) && LocksToWrite(plan, QuotaLock(txn.tenant, db.monthStart)))
    && (db'.books.sales != db.books.sales ==> txn.Buy? && LocksToWrite(plan, PurchaseLock(txn.buyer, txn.purchaseKey)))
    && (forall g :: g in db'.grants && g !in db.grants ==> LocksToWrite(plan, GrantLock(g.0, g.1)))
  }

  ghost predicate Locked(db: DB, db': DB, txn: Txn, plan: seq<Want>) {
    MoneyLocked(db, db', plan) && RunsLocked(db, db', plan) && KeysLocked(db, db', txn, plan)
  }

  lemma AsksAt(plan: seq<Want>, i: nat)
    requires i < |plan| && !plan[i].nested && !plan[i].mode.KeyShare?
    ensures LocksToWrite(plan, plan[i].lock)
  {
  }

  // ----- what a block leaves alone -----

  lemma MoneyUnchanged(db: DB, db': DB, plan: seq<Want>)
    requires db.books.wallets <= db'.books.wallets && db.books.reservations <= db'.books.reservations
    ensures MoneyLocked(db, db', plan)
  {
  }

  lemma RunsUnchanged(db: DB, db': DB, plan: seq<Want>)
    requires db.runs <= db'.runs && db.outbox <= db'.outbox && db'.executions == db.executions
    ensures RunsLocked(db, db', plan)
  {
  }

  lemma KeysUnchanged(db: DB, db': DB, txn: Txn, plan: seq<Want>)
    requires db'.idempotency == db.idempotency && db'.books.payments == db.books.payments && |db'.runs| <= |db.runs|
    requires db'.books.sales == db.books.sales && db'.grants == db.grants
    ensures KeysLocked(db, db', txn, plan)
  {
  }

  lemma NothingUnlocked(db: DB, txn: Txn, plan: seq<Want>)
    ensures Locked(db, db, txn, plan)
  {
    MoneyUnchanged(db, db, plan);
    RunsUnchanged(db, db, plan);
    KeysUnchanged(db, db, txn, plan);
  }

  // ----- each kind of block -----

  lemma InsertIsLocked(db: DB, q: Request, txn: Txn, plan: seq<Want>)
    requires q.tenant < |db.books.wallets| && (txn.AdmitAgent? || txn.AdmitSkill?) && txn.tenant == q.tenant
    requires LocksToWrite(plan, WalletLock(q.tenant)) && LocksToWrite(plan, QuotaLock(q.tenant, db.monthStart))
    requires Keyed(q) ==> LocksToWrite(plan, KeyLock(q.tenant, q.key.value))
    ensures Locked(db, Insert(db, q), txn, plan)
  {
    RunsUnchanged(db, Insert(db, q), plan);
    hide LocksToWrite, Post, RunsLocked;
  }

  lemma AdmissionAsks(db: DB, q: Request, plan: seq<Want>)
    requires plan == AdmissionPlan(db, q) && q.tenant < |db.books.wallets| && AdmissionError(db, q).None?
    requires !(Keyed(q) && (q.tenant, q.key.value) in db.idempotency)
    ensures LocksToWrite(plan, WalletLock(q.tenant)) && LocksToWrite(plan, QuotaLock(q.tenant, db.monthStart))
    ensures Keyed(q) ==> LocksToWrite(plan, KeyLock(q.tenant, q.key.value))
  {
    hide AdmissionError, LocksToWrite;
    AsksAt(plan, 0);
    AsksAt(plan, |plan| - 1);
    AsksAt(plan, |plan| - 2);
  }

  lemma AdmissionIsLocked(c: Catalog, db: DB, txn: Txn)
    requires txn.AdmitAgent? || txn.AdmitSkill?
    ensures Locked(db, Apply(c, db, txn), txn, Plan(c, db, txn))
  {
    var plan := Plan(c, db, txn);
    if RequestOf(c, txn).Committed? {
      var q := RequestOf(c, txn).value;
      assert q.tenant == txn.tenant;
      hide RequestOf, AdmissionError, Insert, Locked, AdmissionPlan;
      if CreateRun(db, q).Committed? && !CreateRun(db, q).value.1.replayed {
        AdmissionAsks(db, q, plan);
        InsertIsLocked(db, q, txn, plan);
      } else {
        NothingUnlocked(db, txn, plan);
      }
    } else {
      NothingUnlocked(db, txn, plan);
    }
  }

  lemma BooksAreLocked(db: DB, b: Books, id: nat, txn: Txn, plan: seq<Want>)
    requires id < |db.books.reservations| && var r := db.books.reservations[id];
             && r.tenant < |db.books.wallets| && |b.wallets| == |db.books.wallets|
             && |b.reservations| == |db.books.reservations|
             && b == db.books.(wallets := db.books.wallets[r.tenant := b.wallets[r.tenant]],
                               reservations := db.books.reservations[id := b.reservations[id]], ledger := b.ledger)
             && LocksToWrite(plan, WalletLock(r.tenant)) && LocksToWrite(plan, ReservationLock(id))
    ensures Locked(db, db.(books := b), txn, plan)
  {
    hide LocksToWrite;
    RunsUnchanged(db, db.(books := b), plan);
    KeysUnchanged(db, db.(books := b), txn, plan);
  }

  lemma ClosingIsLocked(c: Catalog, db: DB, txn: Txn)
    requires txn.SettleTxn? || txn.RefundTxn?
    ensures Locked(db, Apply(c, db, txn), txn, Plan(c, db, txn))
  {
    hide Post, ChargeEntries, RefundEntries, Locked;
    var plan := Plan(c, db, txn);
    assert db.(books := db.books) == db;
    if Apply(c, db, txn) == db {
      NothingUnlocked(db, txn, plan);
    } else {
      var id := FindReservation(db.books, txn.run).value;
      var (b, r) := (Apply(c, db, txn).books, db.books.reservations[id]);
      AsksAt(plan, 0);
      AsksAt(plan, 1);
      assert b.wallets == db.books.wallets[r.tenant := b.wallets[r.tenant]];
      assert b.reservations == db.books.reservations[id := b.reservations[id]];
      BooksAreLocked(db, b, id, txn, plan);
    }
  }

  lemma PaymentIsLocked(c: Catalog, db: DB, txn: Txn)
    requires txn.Deliver?
    ensures Locked(db, Apply(c, db, txn), txn, Plan(c, db, txn))
  {
    hide Post, FindPayment;
    var plan := Plan(c, db, txn);
    RunsUnchanged(db, Apply(c, db, txn), plan);
    AsksAt(plan, 0);
    AsksAt(plan, |plan| - 1);
  }

  lemma SaleIsLocked(db: DB, db': DB, txn: Txn, seller: nat, version: nat, plan: seq<Want>)
    requires txn.Buy? && txn.buyer < |db.books.wallets| && seller < |db.books.wallets|
    requires db'.runs == db.runs && db'.outbox == db.outbox && db'.executions == db.executions
    requires db'.idempotency == db.idempotency && db'.books.payments == db.books.payments
    requires db'.books.reservations == db.books.reservations && |db'.books.wallets| == |db.books.wallets|
    requires forall t :: 0 <= t < |db.books.wallets| && t != txn.buyer && t != seller ==>
                           db'.books.wallets[t] == db.books.wallets[t]
    requires db'.grants == db.grants + {(txn.buyer, version)}
    requires LocksToWrite(plan, WalletLock(txn.buyer)) && LocksToWrite(plan, WalletLock(seller))
    requires LocksToWrite(plan, PurchaseLock(txn.buyer, txn.purchaseKey))
    requires LocksToWrite(plan, GrantLock(txn.buyer, version))
    ensures Locked(db, db', txn, plan)
  {
    hide LocksToWrite;
    RunsUnchanged(db, db', plan);
  }

  lemma PurchaseIsLocked(c: Catalog, db: DB, txn: Txn)
    requires txn.Buy?
    ensures Locked(db, Apply(c, db, txn), txn, Plan(c, db, txn))
  {
    hide Post, FindSale, PublisherShare, SaleEntries, Locked;
    var plan := Plan(c, db, txn);
    var sold := PurchaseListing(db, txn.buyer, txn.listing, txn.purchaseKey);
    if sold.Committed? && !sold.value.1.replayed {
      var version := db.listings[txn.listing].version;
      AsksAt(plan, 0);
      AsksAt(plan, 1);
      AsksAt(plan, 2);
      AsksAt(plan, 3);
      SaleIsLocked(db, sold.value.0, txn, db.books.publishers[db.versions[version].publisher].tenant, version, plan);
    } else {
      NothingUnlocked(db, txn, plan);
    }
  }

  lemma StepIsLocked(c: Catalog, db: DB, txn: Txn)
    requires txn.PrepareStep? || txn.RecordStep?
    ensures Locked(db, Apply(c, db, txn), txn, Plan(c, db, txn))
  {
    var plan := Plan(c, db, txn);
    MoneyUnchanged(db, Apply(c, db, txn), plan);
    KeysUnchanged(db, Apply(c, db, txn), txn, plan);
    if |plan| > 0 {
      AsksAt(plan, 0);
    }
  }

  lemma RowIsLocked(db: DB, db': DB, run: nat, txn: Txn, plan: seq<Want>)
    requires run < |db.runs| && LocksToWrite(plan, RunLock(run)) && |db'.runs| == |db.runs|
    requires db' == db.(runs := db.runs[run := db'.runs[run]], usage := db'.usage)
    ensures Locked(db, db', txn, plan)
  {
    hide LocksToWrite;
    MoneyUnchanged(db, db', plan);
    KeysUnchanged(db, db', txn, plan);
  }

  lemma RunBlockIsLocked(c: Catalog, db: DB, txn: Txn)
    requires txn.BeginRun? || txn.CloseTxn? || txn.CancelTxn? || txn.ExpireTxn?
    ensures Locked(db, Apply(c, db, txn), txn, Plan(c, db, txn))
  {
    hide HasInFlight, Closed, Locked;
    var plan := Plan(c, db, txn);
    if Apply(c, db, txn) == db {
      NothingUnlocked(db, txn, plan);
    } else {
      AsksAt(plan, 0);
      RowIsLocked(db, Apply(c, db, txn), txn.run, txn, plan);
    }
  }

  lemma EventIsLocked(db: DB, db': DB, e: nat, txn: Txn, plan: seq<Want>)
    requires e < |db.outbox| && |db'.outbox| == |db.outbox| && |db'.runs| == |db.runs|
    requires db' == db.(outbox := db.outbox[e := db'.outbox[e]], runs := db'.runs)
    requires LocksToWrite(plan, OutboxLock(db.outbox[e].run))
    requires forall r: nat :: r < |db.runs| && db'.runs[r] != db.runs[r] ==> LocksToWrite(plan, RunLock(r))
    ensures Locked(db, db', txn, plan)
  {
    hide LocksToWrite;
    MoneyUnchanged(db, db', plan);
    KeysUnchanged(db, db', txn, plan);
  }

  lemma DispatchIsLocked(c: Catalog, db: DB, txn: Txn)
    requires txn.DispatchedTxn? || txn.DispatchFailedTxn?
    ensures Locked(db, Apply(c, db, txn), txn, Plan(c, db, txn))
  {
    hide Backoff, Locked, FindEvent;
    var plan := Plan(c, db, txn);
    if FindEvent(db, txn.run).None? {
      NothingUnlocked(db, txn, plan);
    } else {
      EventIsItsRuns(db, txn.run);
      AsksAt(plan, 0);
      AsksAt(plan, |plan| - 1);
      EventIsLocked(db, Apply(c, db, txn), FindEvent(db, txn.run).value, txn, plan);
    }
  }

  lemma EventIsItsRuns(db: DB, run: nat)
    requires FindEvent(db, run).Some?
    ensures FindEvent(db, run).value < |db.outbox| && db.outbox[FindEvent(db, run).value].run == run
  {
  }

  lemma OthersChangeNothing(c: Catalog, db: DB, txn: Txn)
    requires txn.CreateTenant? || txn.RegisterPublisher? || txn.Publish? || txn.List? || txn.SetControl? || txn.Tick?
             || txn.ReadOnly?
    ensures Locked(db, Apply(c, db, txn), txn, Plan(c, db, txn))
  {
    hide FindPublisher, ValidControl, Stamped, Plan, MoneyLocked, RunsLocked, KeysLocked;
    MoneyUnchanged(db, Apply(c, db, txn), Plan(c, db, txn));
    RunsUnchanged(db, Apply(c, db, txn), Plan(c, db, txn));
    KeysUnchanged(db, Apply(c, db, txn), txn, Plan(c, db, txn));
  }

  /** Every transaction: whatever it changes or adds, it has locked to write. */
  lemma ChangesAreLocked(c: Catalog, db: DB, txn: Txn)
    ensures Locked(db, Apply(c, db, txn), txn, Plan(c, db, txn))
  {
    hide Locked, Plan, Apply;
    match txn
    case AdmitAgent(_, _, _, _, _) => AdmissionIsLocked(c, db, txn);
    case AdmitSkill(_, _, _, _, _) => AdmissionIsLocked(c, db, txn);
    case SettleTxn(_, _) => ClosingIsLocked(c, db, txn);
    case RefundTxn(_) => ClosingIsLocked(c, db, txn);
    case Deliver(_) => PaymentIsLocked(c, db, txn);
    case Buy(_, _, _) => PurchaseIsLocked(c, db, txn);
    case PrepareStep(_, _, _) => StepIsLocked(c, db, txn);
    case RecordStep(_, _, _, _) => StepIsLocked(c, db, txn);
    case BeginRun(_) => RunBlockIsLocked(c, db, txn);
    case CloseTxn(_, _) => RunBlockIsLocked(c, db, txn);
    case CancelTxn(_, _) => RunBlockIsLocked(c, db, txn);
    case ExpireTxn(_) => RunBlockIsLocked(c, db, txn);
    case DispatchedTxn(_) => DispatchIsLocked(c, db, txn);
    case DispatchFailedTxn(_) => DispatchIsLocked(c, db, txn);
    case _ => OthersChangeNothing(c, db, txn);
  }

  /** The blocks that read what they must not see change lock it as well: reconcile_wallet its wallet, dispatch_run
      the pending event it finds. */
  lemma ReadsAreLocked(c: Catalog, db: DB, t: nat, run: nat)
    ensures t < |db.books.wallets| ==> LocksToWrite(PlanOf(c, db, WalletCheck(t)), WalletLock(t))
    ensures FindPendingEvent(db, run).Some? ==> LocksToWrite(PlanOf(c, db, EventLook(run)), OutboxLock(run))
  {
    hide Plan, FindPendingEvent;
    if t < |db.books.wallets| {
      AsksAt(PlanOf(c, db, WalletCheck(t)), 0);
    }
    if FindPendingEvent(db, run).Some? {
      AsksAt(PlanOf(c, db, EventLook(run)), 0);
    }
  }
}
