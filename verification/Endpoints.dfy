/** cancel_run (zomega/api.py) and _reconcile_run (zomega/cli.py) with no other actor between their
    blocks: what a cancellation gives back, and why repeating either changes nothing. */
module Endpoints {
  import opened Rows
  import opened Tables
  import opened Billing
  import opened Admission
  import opened RunBlocks
  import opened BooksInvariant
  import opened Transactions
  import opened Consistency
  import opened Machine
  import opened Protocol
  import opened Reaping

  function CancelAlone(db: DB, run: nat, tenant: nat): DB {
    var requested := RequestCancel(db, run, tenant);
    if requested.RolledBack? then db
    else if requested.value.1 then WithBooks(requested.value.0, RefundRun(requested.value.0.books, run, db.now))
    else requested.value.0
  }

  function ReconcileAlone(db: DB, run: nat, action: Action): (DB, Outcome<RunStatus>) {
    if !Reconcilable(db, run) then (db, RolledBack(InvalidRequest))
    else if action.RefundIt? then
      match RefundRun(db.books, run, db.now)
      case RolledBack(e) => (db, RolledBack(e))
      case Committed(b) => (Close(db.(books := b), run, OperatorRefunded), Committed(Fail))
    else if action.charge.None? || action.charge.value < 0 then (db, RolledBack(InvalidRequest))
    else
      match SettleRun(db.books, run, action.charge.value, db.now)
      case RolledBack(e) => (db, RolledBack(e))
      case Committed(b) => (Close(db.(books := b), run, OperatorSettled(action.charge.value)), Committed(Partial))
  }

  /** A closing with nothing charged puts the hold back into its own wallet and touches no other. */
  lemma RefundReturnsHold(db: DB, run: nat)
    requires Consistent(db) && run < |db.runs| && db.books.reservations[run].status == Open
    ensures var r := db.books.reservations[run];
            var b := WithBooks(db, RefundRun(db.books, run, db.now)).books;
            && r.tenant < |db.books.wallets| == |b.wallets|
            && b.reservations == db.books.reservations[run := r.(status := Refunded)]
            && b.wallets[r.tenant].available == db.books.wallets[r.tenant].available + r.amount
            && b.wallets[r.tenant].reserved == db.books.wallets[r.tenant].reserved - r.amount
            && forall t :: 0 <= t < |b.wallets| && t != r.tenant ==> b.wallets[t] == db.books.wallets[t]
  {
    hide Exact, AllFolded, Conserved, AllMarketTotals, AllSpendCovers, MarketOk, KeysOk, ControlsOk;
    assert ReservationOk(db.books.reservations[run], run, |db.books.wallets|, db.now);
    RefundCloses(db.books, run, db.now);
  }

  lemma ConsistentRequest(db: DB, run: nat, tenant: nat)
    requires Consistent(db)
    ensures RequestCancel(db, run, tenant).Committed? ==>
              && Consistent(RequestCancel(db, run, tenant).value.0)
              && RequestCancel(db, run, tenant).value.0.books == db.books
              && RequestCancel(db, run, tenant).value.0.now == db.now
  {
    hide Consistent, OnlyRuns;
    CancelKeeps(NO_CATALOG, db, run, tenant);
    OnlyRunsKeeps(db, Apply(NO_CATALOG, db, CancelTxn(run, tenant)));
  }

  /** Cancelling a run that has not started returns its whole hold, and no worker ever starts it. */
  lemma CancelReturnsHold(db: DB, run: nat)
    requires Consistent(db) && run < |db.runs|
    requires db.runs[run].status in {PendingDispatch, Queued} && db.books.reservations[run].status == Open
    ensures var r := db.books.reservations[run];
            var db' := CancelAlone(db, run, r.tenant);
            && run < |db'.runs| && db'.runs[run].status == Cancelled && Begin(db', run) == Committed((db', false))
            && r.tenant < |db.books.wallets| == |db'.books.wallets|
            && db'.books.reservations == db.books.reservations[run := r.(status := Refunded)]
            && db'.books.wallets[r.tenant].available == db.books.wallets[r.tenant].available + r.amount
            && db'.books.wallets[r.tenant].reserved == db.books.wallets[r.tenant].reserved - r.amount
            && forall t :: 0 <= t < |db.books.wallets| && t != r.tenant ==> db'.books.wallets[t] == db.books.wallets[t]
  {
    var tenant := db.books.reservations[run].tenant;
    assert db.runs[run].tenant == tenant;
    ConsistentRequest(db, run, tenant);
    hide Consistent, RefundRun, HasInFlight;
    RefundReturnsHold(RequestCancel(db, run, tenant).value.0, run);
  }

  /** Admission followed by cancellation leaves every balance as it was. */
  lemma AdmitThenCancel(db: DB, q: Request, admitted: DB)
    requires Consistent(db) && CreateRun(db, q) == Committed((admitted, Admitted(|db.runs|, false)))
    ensures var db' := CancelAlone(admitted, |db.runs|, q.tenant);
            && |db'.books.wallets| == |db.books.wallets|
            && forall t :: 0 <= t < |db.books.wallets| ==>
                 && db'.books.wallets[t].available == db.books.wallets[t].available
                 && db'.books.wallets[t].reserved == db.books.wallets[t].reserved
  {
    AdmissionKeeps(db, q);
    NewRunWaits(db, q, admitted);
    hide Consistent, CreateRun, CancelAlone;
    CancelReturnsHold(admitted, |db.runs|);
  }

  lemma NewRunWaits(db: DB, q: Request, admitted: DB)
    requires Aligned(db) && CreateRun(db, q) == Committed((admitted, Admitted(|db.runs|, false)))
    ensures var run := |db.runs|;
            var b, b' := db.books, admitted.books;
            && run < |admitted.runs| && admitted.runs[run].status == PendingDispatch
            && run < |b'.reservations| && b'.reservations[run].status == Open
            && b'.reservations[run].tenant == q.tenant < |b.wallets| == |b'.wallets|
            && b'.wallets[q.tenant].available == b.wallets[q.tenant].available - b'.reservations[run].amount
            && b'.wallets[q.tenant].reserved == b.wallets[q.tenant].reserved + b'.reservations[run].amount
            && forall t :: 0 <= t < |b.wallets| && t != q.tenant ==> b'.wallets[t] == b.wallets[t]
  {
    hide AdmissionError, Post;
  }

  /** Only the run's own tenant can cancel it, a run that has ended stays as it was, and one that is executing
      is only asked to stop: its hold stays where it is until its worker settles. */
  lemma CancelDecides(db: DB, run: nat, tenant: nat)
    ensures RequestCancel(db, run, tenant) == RolledBack(NotFound)
       <==> run >= |db.runs| || db.runs[run].tenant != tenant
    ensures run >= |db.runs| || db.runs[run].tenant != tenant || Ended(db.runs[run].status) ==>
              CancelAlone(db, run, tenant) == db
    ensures run < |db.runs| && db.runs[run].tenant == tenant && db.runs[run].status in {Running, CancelRequested} ==>
              CancelAlone(db, run, tenant)
              == db.(runs := db.runs[run := db.runs[run].(status := CancelRequested, cancelRequested := true)])
    ensures run < |db.runs| && db.runs[run].tenant == tenant && db.runs[run].status in {PendingDispatch, Queued} ==>
              var db' := CancelAlone(db, run, tenant);
              db' == db.(books := db'.books,
                         runs := db.runs[run := db.runs[run].(status := Cancelled, cancelRequested := true)])
  {
    hide RefundRun;
  }

  /** A second cancellation changes nothing. */
  lemma CancelTwice(db: DB, run: nat, tenant: nat)
    ensures var once := CancelAlone(db, run, tenant); CancelAlone(once, run, tenant) == once
  {
    hide RefundRun;
    var once := CancelAlone(db, run, tenant);
    if RequestCancel(db, run, tenant).Committed? {
      assert once.runs[run].tenant == tenant;
      if once.runs[run].status == CancelRequested {
        assert once.runs[run := once.runs[run]] == once.runs;
      }
    }
  }

  /** What the operator may decide: only about a run blocked for its ambiguous provider state, with its hold
      open, and to charge no more than the hold. */
  predicate Decidable(db: DB, run: nat, action: Action) {
    && run < |db.runs| && run < |db.books.reservations|
    && db.runs[run].status == Blocked && db.runs[run].error == Some("AMBIGUOUS_PROVIDER_STATE")
    && db.books.reservations[run].status == Open
    && (action.SettleIt? ==> action.charge.Some? && 0 <= action.charge.value <= db.books.reservations[run].amount)
  }

  function Charged(action: Action): int {
    if action.SettleIt? && action.charge.Some? then action.charge.value else 0
  }

  /** The operator's decision as it is to be recorded: a refund fails the run, a settlement leaves it partial
      and charged, and the rest of the hold goes back to the tenant. */
  ghost predicate Decided(db: DB, db': DB, run: nat, action: Action)
    requires Decidable(db, run, action)
  {
    var (b, b', r, res) := (db.books, db'.books, db.runs[run], db.books.reservations[run]);
    && db' == db.(
        books := b',
        runs := db.runs[run :=
                  if action.RefundIt? then r.(status := Fail, error := Some("OPERATOR_REFUNDED_AMBIGUOUS"))
                  else r.(status := Partial, error := Some("OPERATOR_SETTLED_AMBIGUOUS"), charged := Charged(action))])
    && b'.reservations
    == b.reservations[run := if action.RefundIt? then res.(status := Refunded)
                             else res.(status := Settled, settled := Charged(action))]
    && res.tenant < |b.wallets|
    && b'.wallets == b.wallets[res.tenant := Wallet(b.wallets[res.tenant].available + res.amount - Charged(action),
                                                    b.wallets[res.tenant].reserved - res.amount,
                                                    b.wallets[res.tenant].version + 1)]
  }

  lemma ReservationOfRun(db: DB, run: nat)
    requires Consistent(db)
    ensures FindReservation(db.books, run) == if run < |db.runs| then Some(run) else None
    ensures |db.runs| == |db.books.reservations| && RowsOk(db.books, db.now)
    ensures run < |db.runs| ==> db.books.reservations[run].settled == 0 || db.books.reservations[run].status == Settled
  {
    OwnReservation(db, run);
    assert run < |db.runs| ==> ReservationOk(db.books.reservations[run], run, |db.books.wallets|, db.now);
  }

  lemma OperatorRefunds(db: DB, run: nat, action: Action)
    requires Consistent(db) && action.RefundIt?
    ensures var (db', result) := ReconcileAlone(db, run, action);
            && (result.Committed? <==> Decidable(db, run, action))
            && (result.RolledBack? ==> db' == db)
            && (result.Committed? ==> Decided(db, db', run, action) && result.value == db'.runs[run].status)
  {
    ReservationOfRun(db, run);
    hide Consistent, RowsOk, FindReservation, SettleRun;
    RefundCloses(db.books, run, db.now);
  }

  lemma OperatorSettles(db: DB, run: nat, action: Action)
    requires Consistent(db) && action.SettleIt? && action.charge.Some?
    ensures var (db', result) := ReconcileAlone(db, run, action);
            && (result.Committed? <==> Decidable(db, run, action))
            && (result.RolledBack? ==> db' == db)
            && (result.Committed? ==> Decided(db, db', run, action) && result.value == db'.runs[run].status)
  {
    ReservationOfRun(db, run);
    hide Consistent, RowsOk, FindReservation, RefundRun;
    SettleCloses(db.books, run, action.charge.value, db.now);
  }

  /** The operator's command does exactly what may be decided, and otherwise nothing. */
  lemma OperatorDecides(db: DB, run: nat, action: Action)
    requires Consistent(db)
    ensures var (db', result) := ReconcileAlone(db, run, action);
            && (result.Committed? <==> Decidable(db, run, action))
            && (result.RolledBack? ==> db' == db)
            && (result.Committed? ==> Decided(db, db', run, action) && result.value == db'.runs[run].status)
  {
    if action.RefundIt? {
      OperatorRefunds(db, run, action);
    } else if action.charge.Some? {
      OperatorSettles(db, run, action);
    }
  }

  /** An operator's decision is final: once one is carried out, any further one is refused. */
  lemma ReconcileOnce(db: DB, run: nat, action: Action, again: Action)
    requires ReconcileAlone(db, run, action).1.Committed?
    ensures var done := ReconcileAlone(db, run, action).0;
            ReconcileAlone(done, run, again) == (done, RolledBack(InvalidRequest))
  {
    hide RefundRun, SettleRun;
  }
}
