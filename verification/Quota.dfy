/** The monthly limits of zomega/commercial.py over whole histories. Each admission is one
    transaction, so its two SELECTs see one snapshot. */
module Quota {
  import opened Rows
  import opened Tables
  import opened Pricing
  import opened Billing
  import opened Admission
  import opened BooksInvariant
  import opened Transactions
  import opened Consistency

  /** Charges on runs admitted since `month`, plus what such runs still hold. */
  function Exposure(b: Books, t: nat, month: int): int {
    Sum(b.reservations, OpenSince(t, month)) + Sum(b.reservations, SettledSince(t, month))
  }

  function RunCount(db: DB, t: nat, month: int): int {
    Sum(db.runs, RunsSince(t, month))
  }

  predicate WithinLimits(db: DB, t: nat, control: Control) {
    && (control.monthlyCreditLimit.Some? ==> Exposure(db.books, t, db.monthStart) <= control.monthlyCreditLimit.value)
    && (control.monthlyRunLimit.Some? ==> RunCount(db, t, db.monthStart) <= control.monthlyRunLimit.value)
  }

  lemma CloseShrinksExposure(b: Books, b': Books, id: nat, charge: int, status: ReservationStatus, now: nat, t: nat,
                             month: int)
    requires Closes(b, b', id, charge, status, now) && b.reservations[id].settled == 0
    ensures Exposure(b', t, month) <= Exposure(b, t, month)
  {
    SumUpdate(b.reservations, id, b'.reservations[id], OpenSince(t, month));
    SumUpdate(b.reservations, id, b'.reservations[id], SettledSince(t, month));
  }

  lemma AdmissionWithinLimits(db: DB, q: Request, t: nat)
    requires AllSpendCovers(db.books) && t in db.controls && WithinLimits(db, t, db.controls[t])
    ensures var result := CreateRun(db, q); result.Committed? ==> WithinLimits(result.value.0, t, db.controls[t])
  {
    var result := CreateRun(db, q);
    if result.Committed? && !result.value.1.replayed {
      var db' := Insert(db, q);
      var m := db.monthStart;
      SumAppend(db.runs, NewRun(q, db.now), RunsSince(t, m));
      var held := db'.books.reservations[|db.books.reservations|];
      SumAppend(db.books.reservations, held, OpenSince(t, m));
      SumAppend(db.books.reservations, held, SettledSince(t, m));
      assert SpendCovers(db.books, t, m);
    }
  }

  lemma {:induction false} RunsSinceOfSame(a: seq<Run>, b: seq<Run>, t: nat, month: int)
    requires |a| == |b| && forall r :: 0 <= r < |a| ==> Identity(a[r]) == Identity(b[r])
    ensures Sum(a, RunsSince(t, month)) == Sum(b, RunsSince(t, month))
    decreases |a|
  {
    if |a| > 0 {
      var n := |a| - 1;
      RunsSinceOfSame(a[..n], b[..n], t, month);
      assert Identity(a[n]) == Identity(b[n]);
    }
  }

  lemma RunTxnWithinLimits(db: DB, db': DB, t: nat, control: Control)
    requires OnlyRuns(db, db') && WithinLimits(db, t, control)
    ensures WithinLimits(db', t, control)
  {
    RunsSinceOfSame(db.runs, db'.runs, t, db.monthStart);
  }

  lemma BooksOkRows(db: DB)
    requires Consistent(db)
    ensures RowsOk(db.books, db.now) && AllSpendCovers(db.books)
  {
  }

  lemma SameTablesWithinLimits(db: DB, db': DB, t: nat, control: Control)
    requires db'.runs == db.runs && db'.books.reservations == db.books.reservations && db'.monthStart == db.monthStart
    ensures WithinLimits(db', t, control) <==> WithinLimits(db, t, control)
  {
  }

  /** A transaction that leaves the tenant's control row and the month alone. */
  predicate LimitsFixed(txn: Txn, t: nat, monthStart: nat) {
    && !(txn.SetControl? && txn.tenant == t)
    && (txn.Tick? ==> txn.monthStart == monthStart)
  }

  lemma SettleShrinksExposure(b: Books, run: nat, charge: int, now: nat, t: nat, month: int)
    requires RowsOk(b, now)
    ensures SettleRun(b, run, charge, now).Committed? ==>
              Exposure(SettleRun(b, run, charge, now).value, t, month) <= Exposure(b, t, month)
  {
    SettleCloses(b, run, charge, now);
    var result := SettleRun(b, run, charge, now);
    if result.Committed? {
      assert ReservationOk(b.reservations[run], run, |b.wallets|, now);
      CloseShrinksExposure(b, result.value, run, charge, Settled, now, t, month);
    }
  }

  lemma RefundShrinksExposure(b: Books, run: nat, now: nat, t: nat, month: int)
    requires RowsOk(b, now)
    ensures RefundRun(b, run, now).Committed? ==>
              Exposure(RefundRun(b, run, now).value, t, month) <= Exposure(b, t, month)
  {
    RefundCloses(b, run, now);
    var result := RefundRun(b, run, now);
    if result.value != b {
      assert ReservationOk(b.reservations[run], run, |b.wallets|, now);
      CloseShrinksExposure(b, result.value, run, 0, Refunded, now, t, month);
    }
  }

  lemma BooksTxnWithinLimits(c: Catalog, db: DB, txn: Txn, t: nat, control: Control)
    requires RowsOk(db.books, db.now) && WithinLimits(db, t, control)
    requires txn.SettleTxn? || txn.RefundTxn?
    ensures WithinLimits(Apply(c, db, txn), t, control)
  {
    hide SettleRun, RefundRun, Exposure;
    if txn.SettleTxn? {
      SettleShrinksExposure(db.books, txn.run, txn.charge, db.now, t, db.monthStart);
    } else {
      RefundShrinksExposure(db.books, txn.run, db.now, t, db.monthStart);
    }
  }

  lemma OthersAdmitNothing(c: Catalog, db: DB, txn: Txn)
    requires txn.CreateTenant? || txn.Deliver? || txn.Buy? || txn.RegisterPublisher? || txn.Publish? || txn.List?
             || txn.SetControl? || txn.Tick? || txn.PrepareStep? || txn.RecordStep? || txn.DispatchFailedTxn?
             || txn.ReadOnly?
    ensures var db' := Apply(c, db, txn); db'.runs == db.runs && db'.books.reservations == db.books.reservations
  {
  }

  lemma LimitsStayFixed(c: Catalog, db: DB, txn: Txn, t: nat)
    requires t in db.controls && LimitsFixed(txn, t, db.monthStart)
    ensures var db' := Apply(c, db, txn);
            db'.monthStart == db.monthStart && t in db'.controls && db'.controls[t] == db.controls[t]
  {
  }

  lemma TxnWithinLimits(c: Catalog, db: DB, txn: Txn, t: nat)
    requires Consistent(db) && t in db.controls && WithinLimits(db, t, db.controls[t])
    requires LimitsFixed(txn, t, db.monthStart)
    ensures WithinLimits(Apply(c, db, txn), t, db.controls[t])
  {
    hide WithinLimits, OnlyRuns, BooksOk;
    var db' := Apply(c, db, txn);
    LimitsStayFixed(c, db, txn, t);
    match txn
    case AdmitAgent(_, _, _, _, _) =>
      BooksOkRows(db);
      if RequestOf(c, txn).Committed? {
        AdmissionWithinLimits(db, RequestOf(c, txn).value, t);
      }
    case AdmitSkill(_, _, _, _, _) =>
      BooksOkRows(db);
      if RequestOf(c, txn).Committed? {
        AdmissionWithinLimits(db, RequestOf(c, txn).value, t);
      }
    case SettleTxn(_, _) => BooksOkRows(db); BooksTxnWithinLimits(c, db, txn, t, db.controls[t]);
    case RefundTxn(_) => BooksOkRows(db); BooksTxnWithinLimits(c, db, txn, t, db.controls[t]);
    case BeginRun(run) => BeginKeeps(c, db, run); RunTxnWithinLimits(db, db', t, db.controls[t]);
    case CloseTxn(run, w) => CloseTxnKeeps(c, db, run, w); RunTxnWithinLimits(db, db', t, db.controls[t]);
    case CancelTxn(run, tenant) => CancelKeeps(c, db, run, tenant); RunTxnWithinLimits(db, db', t, db.controls[t]);
    case ExpireTxn(run) => CancelKeeps(c, db, run, 0); RunTxnWithinLimits(db, db', t, db.controls[t]);
    case DispatchedTxn(run) => OutboxKeeps(c, db, run); RunTxnWithinLimits(db, db', t, db.controls[t]);
    case _ => OthersAdmitNothing(c, db, txn); SameTablesWithinLimits(db, db', t, db.controls[t]);
  }

  /** While a tenant's limits and the month stay fixed, no history takes the tenant over them. */
  lemma {:induction false} LimitsHoldAllMonth(c: Catalog, db: DB, history: seq<Txn>, t: nat)
    requires Consistent(db) && t in db.controls && WithinLimits(db, t, db.controls[t])
    requires forall txn :: txn in history ==> LimitsFixed(txn, t, db.monthStart)
    ensures var db' := Replayed(c, db, history);
            && db'.monthStart == db.monthStart && t in db'.controls && db'.controls[t] == db.controls[t]
            && WithinLimits(db', t, db.controls[t])
    decreases |history|
  {
    if |history| > 0 {
      var front := history[..|history| - 1];
      LimitsHoldAllMonth(c, db, front, t);
      HistoryKeeps(c, db, front);
      LimitsStayFixed(c, Replayed(c, db, front), history[|history| - 1], t);
      TxnWithinLimits(c, Replayed(c, db, front), history[|history| - 1], t);
    }
  }

  /** set_control takes exactly positive limits, at least thirty days of retention and a known tenant; it then
      stores every column as given and counts the version up, and otherwise changes nothing. */
  lemma ControlIsStored(c: Catalog, db: DB, t: nat, control: Control)
    ensures var valid := && t < |db.books.wallets|
                         && (control.monthlyCreditLimit.Some? ==> control.monthlyCreditLimit.value > 0)
                         && (control.monthlyRunLimit.Some? ==> control.monthlyRunLimit.value > 0)
                         && control.retentionDays >= 30;
            var version := if t in db.controls then db.controls[t].version + 1 else 1;
            Apply(c, db, SetControl(t, control))
            == if !valid then db
               else db.(controls := db.controls[t := Control(control.monthlyCreditLimit, control.monthlyRunLimit,
                                                             control.allowedAgents, control.allowedSkills,
                                                             control.retentionDays, version)])
  {
  }

  /** A new month starts with nothing counted against either limit. */
  lemma NewMonthStartsEmpty(c: Catalog, db: DB, now: nat, monthStart: nat, t: nat)
    requires Consistent(db) && db.now < monthStart <= now && t in db.controls
    ensures var db' := Apply(c, db, Tick(now, monthStart));
            && Exposure(db'.books, t, monthStart) == 0 && RunCount(db', t, monthStart) == 0
            && WithinLimits(db', t, db.controls[t])
  {
    var b := db.books;
    assert forall r :: 0 <= r < |b.reservations| ==> ReservationOk(b.reservations[r], r, |b.wallets|, db.now);
    SumZero(b.reservations, OpenSince(t, monthStart));
    SumZero(b.reservations, SettledSince(t, monthStart));
    SumZero(db.runs, RunsSince(t, monthStart));
    assert ValidControl(db, t, db.controls[t]);
  }

  /** All the month's spend as the admission check counts it, purchases and carried-over charges included. */
  function MonthSpend(db: DB, t: nat): int {
    Sum(db.books.ledger, SpentSince(t, db.monthStart)) + Sum(db.books.reservations, OpenSince(t, db.monthStart))
  }

  /** The tenant's allow-lists; an empty list allows everything. */
  predicate Permitted(control: Control, f: Fingerprint) {
    && (control.allowedAgents == {} || f.agent in control.allowedAgents)
    && (f.skill.None? || control.allowedSkills == {} || f.skill.value in control.allowedSkills)
  }

  /** A new request is admitted exactly when the tenant has the credits for a positive reservation
      and its control row, if there is one, permits the request and has room for it this month. */
  lemma AdmittedExactlyWhen(db: DB, q: Request)
    requires !(Keyed(q) && (q.tenant, q.key.value) in db.idempotency)
    ensures CreateRun(db, q).Committed? <==>
              && q.tenant < |db.books.wallets|
              && 0 < q.fingerprint.reservation <= db.books.wallets[q.tenant].available
              && (q.tenant in db.controls ==>
                    var control := db.controls[q.tenant];
                    && Permitted(control, q.fingerprint)
                    && (control.monthlyRunLimit.Some? ==>
                          RunCount(db, q.tenant, db.monthStart) < control.monthlyRunLimit.value)
                    && (control.monthlyCreditLimit.Some? ==>
                          MonthSpend(db, q.tenant) + q.fingerprint.reservation <= control.monthlyCreditLimit.value))
  {
  }

  /** A new request that is refused is refused for the first of these that applies: the allow-lists, the run limit,
      the credit limit, an unknown tenant, too few credits, a reservation that is not positive. */
  lemma RefusedBecause(db: DB, q: Request)
    requires !(Keyed(q) && (q.tenant, q.key.value) in db.idempotency) && CreateRun(db, q).RolledBack?
    ensures var (e, limited, runs, spend) := (CreateRun(db, q).error, q.tenant in db.controls,
                                              RunCount(db, q.tenant, db.monthStart), MonthSpend(db, q.tenant));
            if limited && !Permitted(db.controls[q.tenant], q.fingerprint) then e == Forbidden
            else if limited && db.controls[q.tenant].monthlyRunLimit.Some?
                    && runs >= db.controls[q.tenant].monthlyRunLimit.value
            then e == RunLimitExceeded
            else if limited && db.controls[q.tenant].monthlyCreditLimit.Some?
                    && spend + q.fingerprint.reservation > db.controls[q.tenant].monthlyCreditLimit.value
            then e == CreditLimitExceeded
            else if q.tenant >= |db.books.wallets| then e == NotFound
            else if db.books.wallets[q.tenant].available < q.fingerprint.reservation then e == InsufficientCredits
            else e == ConstraintViolation
  {
  }
}
