/** reservation_reaper on its own: what one pass closes, and how many passes drain the expired. */
module Reaping {
  import opened Rows
  import opened Tables
  import opened Billing
  import opened RunBlocks
  import opened BooksInvariant
  import opened Transactions
  import opened Consistency
  import opened Machine

  /** The refund block and the status block for one run. */
  function ReapOne(db: DB, run: nat): DB {
    Expire(WithBooks(db, RefundRun(db.books, run, db.now)), run)
  }

  /** One pass over the selected runs, in order; the flag says that no refund has raised and ended it. */
  function ReapAll(db: DB, queue: seq<nat>): (DB, bool) {
    if |queue| == 0 then (db, true)
    else
      var before := ReapAll(db, queue[..|queue| - 1]);
      var run := queue[|queue| - 1];
      if !before.1 || RefundRun(before.0.books, run, before.0.now).RolledBack? then (before.0, false)
      else (ReapOne(before.0, run), true)
  }

  ghost function Expired(db: DB): set<nat> {
    set run | 0 <= run < |db.runs| && Reapable(db, run)
  }

  /** SELECT ... LIMIT 200 in no particular order: any distinct expired rows, as many as the limit allows. */
  ghost predicate Selects(db: DB, queue: seq<nat>) {
    && ValidPick(db, queue)
    && |queue| == if |Expired(db)| <= REAP_LIMIT then |Expired(db)| else REAP_LIMIT
  }

  lemma OwnReservation(db: DB, run: nat)
    requires Consistent(db)
    ensures FindReservation(db.books, run) == if run < |db.runs| then Some(run) else None
  {
    if run < |db.runs| {
      assert ReservationOk(db.books.reservations[run], run, |db.books.wallets|, db.now);
    }
    if FindReservation(db.books, run).Some? {
      var i := FindReservation(db.books, run).value;
      assert ReservationOk(db.books.reservations[i], i, |db.books.wallets|, db.now);
    }
  }

  /** A hold can be reaped exactly when it is open, more than two hours old, and its run is waiting, failed
      or cancelled. */
  lemma ReapedExactlyWhen(db: DB, run: nat)
    requires Consistent(db)
    ensures Reapable(db, run) <==>
              && run < |db.runs| && run < |db.books.reservations|
              && db.books.reservations[run].status == Open
              && db.now > db.books.reservations[run].createdAt + 7200
              && db.runs[run].status in {PendingDispatch, Queued, Fail, Cancelled}
  {
    OwnReservation(db, run);
    assert run < |db.runs| ==> ReservationOk(db.books.reservations[run], run, |db.books.wallets|, db.now);
  }

  lemma ReapOneKeeps(db: DB, run: nat)
    requires Consistent(db)
    ensures Consistent(ReapOne(db, run))
  {
    hide BooksOk, Aligned, MarketOk, KeysOk, ControlsOk, OnlyRuns;
    RefundTxnKeeps(NO_CATALOG, db, run);
    var refunded := WithBooks(db, RefundRun(db.books, run, db.now));
    CancelKeeps(NO_CATALOG, refunded, run, 0);
    OnlyRunsKeeps(refunded, Expire(refunded, run));
  }

  /** Reaping one expired run closes its reservation as refunded, fails it if it was waiting, and
      leaves every other run and reservation alone. */
  lemma ReapOneCloses(db: DB, run: nat)
    requires Consistent(db) && Reapable(db, run)
    ensures var db' := ReapOne(db, run);
            && |db'.runs| == |db.runs| == |db'.books.reservations| == |db.books.reservations| && db'.now == db.now
            && var r := db.books.reservations[run];
            && db'.books.reservations[run] == r.(status := Refunded)
            && r.tenant < |db.books.wallets|
            && db'.books.wallets
            == db.books.wallets[r.tenant := Wallet(db.books.wallets[r.tenant].available + r.amount,
                                                   db.books.wallets[r.tenant].reserved - r.amount,
                                                   db.books.wallets[r.tenant].version + 1)]
            && db'.runs[run] == (if db.runs[run].status in {PendingDispatch, Queued}
                                 then db.runs[run].(status := Fail, error := Some("RESERVATION_EXPIRED"))
                                 else db.runs[run])
            && forall q :: 0 <= q < |db.runs| && q != run ==>
                             db'.runs[q] == db.runs[q] && db'.books.reservations[q] == db.books.reservations[q]
  {
    OwnReservation(db, run);
    assert ReservationOk(db.books.reservations[run], run, |db.books.wallets|, db.now);
    hide RowsOk, Exact, AllFolded, Conserved, AllMarketTotals, AllSpendCovers, MarketOk, KeysOk, ControlsOk;
    RefundCloses(db.books, run, db.now);
  }

  lemma ReapedOrNot(db: DB, db': DB, run: nat, q: nat)
    requires Consistent(db) && Consistent(db') && db'.now == db.now
    requires run < |db.runs| == |db'.runs| && q < |db.runs|
    requires |db'.books.reservations| == |db.books.reservations| == |db.runs|
    requires db'.books.reservations[run].status == Refunded
    requires q != run ==> db'.runs[q] == db.runs[q] && db'.books.reservations[q] == db.books.reservations[q]
    ensures Reapable(db', q) <==> Reapable(db, q) && q != run
  {
    OwnReservation(db, q);
    OwnReservation(db', q);
    hide Consistent, FindReservation;
  }

  lemma ReapOneShrinks(db: DB, run: nat)
    requires Consistent(db) && Reapable(db, run)
    ensures Consistent(ReapOne(db, run)) && Expired(ReapOne(db, run)) == Expired(db) - {run}
  {
    assert run < |db.runs|;
    hide ReapOne, Consistent, FindReservation, Reapable;
    ReapOneKeeps(db, run);
    ReapOneCloses(db, run);
    var db' := ReapOne(db, run);
    forall q | 0 <= q < |db.runs| ensures Reapable(db', q) <==> Reapable(db, q) && q != run {
      ReapedOrNot(db, db', run, q);
    }
  }

  function Picked(queue: seq<nat>): set<nat> {
    set run | run in queue
  }

  /** Where a refund raised, the pass ended. */
  lemma {:induction false} RaisedStays(db: DB, queue: seq<nat>, i: nat)
    requires i <= |queue| && !ReapAll(db, queue[..i]).1
    ensures ReapAll(db, queue) == ReapAll(db, queue[..i])
    decreases |queue|
  {
    if i == |queue| {
      assert queue[..i] == queue;
    } else {
      assert queue[..|queue| - 1][..i] == queue[..i];
      RaisedStays(db, queue[..|queue| - 1], i);
    }
  }

  lemma RefundCommits(db: DB, run: nat)
    requires Consistent(db)
    ensures RefundRun(db.books, run, db.now).Committed?
  {
    assert RowsOk(db.books, db.now);
    RefundCloses(db.books, run, db.now);
  }

  lemma {:induction false} PassShrinks(db: DB, queue: seq<nat>)
    requires Consistent(db)
    requires forall run :: run in queue ==> Reapable(db, run)
    requires forall i, j :: 0 <= i < j < |queue| ==> queue[i] != queue[j]
    ensures ReapAll(db, queue).1 && Consistent(ReapAll(db, queue).0)
    ensures Expired(ReapAll(db, queue).0) == Expired(db) - Picked(queue)
    decreases |queue|
  {
    hide Consistent, ReapOne, Reapable, RefundRun, Expired;
    if |queue| > 0 {
      var front, run := queue[..|queue| - 1], queue[|queue| - 1];
      PassShrinks(db, front);
      var before := ReapAll(db, front).0;
      RefundCommits(before, run);
      PicksOneMore(db, front, run, Expired(before));
      ReapableIsExpired(before, run);
      ReapOneShrinks(before, run);
      assert queue == front + [run];
    }
  }

  lemma PicksOneMore(db: DB, front: seq<nat>, run: nat, left: set<nat>)
    requires Reapable(db, run) && run !in front && left == Expired(db) - Picked(front)
    ensures run in left && left - {run} == Expired(db) - Picked(front + [run])
  {
    hide Reapable;
    ReapableIsExpired(db, run);
    assert Picked(front + [run]) == Picked(front) + {run};
  }

  lemma ReapableIsExpired(db: DB, run: nat)
    ensures run in Expired(db) <==> Reapable(db, run)
  {
  }

  lemma {:induction false} DistinctSize(queue: seq<nat>)
    requires forall i, j :: 0 <= i < j < |queue| ==> queue[i] != queue[j]
    ensures |Picked(queue)| == |queue|
    decreases |queue|
  {
    if |queue| > 0 {
      var n := |queue| - 1;
      DistinctSize(queue[..n]);
      assert queue == queue[..n] + [queue[n]];
      assert Picked(queue) == Picked(queue[..n]) + {queue[n]};
      assert queue[n] !in Picked(queue[..n]);
    }
  }

  /** One pass closes min(n, 200) of the n expired reservations. */
  lemma PassCloses(db: DB, queue: seq<nat>)
    requires Consistent(db) && Selects(db, queue)
    ensures ReapAll(db, queue).1 && Consistent(ReapAll(db, queue).0)
    ensures |Expired(ReapAll(db, queue).0)| == if |Expired(db)| <= 200 then 0 else |Expired(db)| - 200
  {
    hide Consistent, Reapable, ReapAll;
    PassShrinks(db, queue);
    DistinctSize(queue);
    assert Picked(queue) <= Expired(db) by {
      forall run | run in Picked(queue) ensures run in Expired(db) {
        ReapableIsExpired(db, run);
      }
    }
    assert |Expired(db) - Picked(queue)| == |Expired(db)| - |Picked(queue)|;
  }

  /** Whatever rows each pass happens to select, ceil(n / 200) passes leave nothing expired. */
  lemma {:induction false} PassesDrain(db: DB, states: seq<DB>, queues: seq<seq<nat>>)
    requires Consistent(db) && |states| == |queues| + 1 && states[0] == db
    requires forall i :: 0 <= i < |queues| ==>
                         Selects(states[i], queues[i]) && states[i + 1] == ReapAll(states[i], queues[i]).0
    requires |queues| * 200 >= |Expired(db)|
    ensures Expired(states[|queues|]) == {}
    decreases |queues|
  {
    hide Consistent, Selects, ReapAll, Expired;
    if |queues| > 0 {
      PassCloses(db, queues[0]);
      PassesDrain(states[1], states[1..], queues[1..]);
    }
  }
}
