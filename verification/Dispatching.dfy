/** dispatch_run and dispatch_pending on their own (zomega/outbox.py): what a pass over the outbox does. */
module Dispatching {
  import opened Rows
  import opened Tables
  import opened RunBlocks

  /** dispatch_run's blocks in a row; `enqueued` is whether Redis took the job. */
  function DispatchOne(db: DB, run: nat, enqueued: bool): (DB, bool) {
    if FindPendingEvent(db, run).None? then (db, false)
    else if enqueued then (Dispatched(db, run), true)
    else (DispatchFailed(db, run), false)
  }

  /** dispatch_pending over the rows it selected, and the count it returns. */
  function DispatchEach(db: DB, ids: seq<nat>, enqueued: nat -> bool): (DB, nat) {
    if |ids| == 0 then (db, 0)
    else
      var before := DispatchEach(db, ids[..|ids| - 1], enqueued);
      var last := DispatchOne(before.0, ids[|ids| - 1], enqueued(ids[|ids| - 1]));
      (last.0, before.1 + if last.1 then 1 else 0)
  }

  /** Retries wait at least as long as the one before, from two seconds up; the cap of 300 seconds is
      never reached, because the exponent stops at 8. */
  lemma BackoffGrows(attempts: nat)
    ensures Backoff(attempts) <= Backoff(attempts + 1) <= 256
    ensures attempts >= 1 ==> Backoff(attempts) >= 2
  {
    assert Power2(8) == 2 * Power2(7) == 4 * Power2(6) == 8 * Power2(5) == 16 * Power2(4) == 256;
    Power2Grows(if attempts <= 8 then attempts else 8, 8);
    if attempts <= 8 {
      Power2Grows(1, attempts + 1);
    }
  }

  lemma {:induction false} Power2Grows(m: nat, n: nat)
    ensures m <= n ==> 1 <= Power2(m) <= Power2(n)
    ensures Power2(0) == 1 && Power2(1) == 2
    decreases n
  {
    if 0 < n {
      Power2Grows(if m == 0 then 0 else m - 1, n - 1);
    }
  }

  /** Event i belongs to run i. */
  ghost predicate Numbered(db: DB) {
    |db.outbox| == |db.runs| && forall i :: 0 <= i < |db.outbox| ==> db.outbox[i].run == i
  }

  /** The pending runs among `ids` that Redis takes. */
  ghost function Taken(db: DB, ids: seq<nat>, enqueued: nat -> bool): set<nat>
    requires Numbered(db)
  {
    set run | run in ids && run < |db.runs| && !db.outbox[run].dispatched && enqueued(run)
  }

  /** The jobs in `taken` are dispatched and their waiting runs queued; nothing else changes but
      the retry bookkeeping of events that stay pending. */
  ghost predicate Marked(db: DB, db': DB, taken: set<nat>) {
    && Numbered(db) && Numbered(db')
    && |db'.runs| == |db.runs| && db'.books == db.books && db'.now == db.now
    && forall run :: 0 <= run < |db.runs| ==>
        && (db'.outbox[run].dispatched <==> db.outbox[run].dispatched || run in taken)
        && (db.outbox[run].dispatched ==> db'.outbox[run] == db.outbox[run])
        && db'.outbox[run].attempts >= db.outbox[run].attempts
        && db'.runs[run] == if run in taken && db.runs[run].status == PendingDispatch
                            then db.runs[run].(status := Queued) else db.runs[run]
  }

  lemma OwnEvent(db: DB, run: nat)
    requires Numbered(db)
    ensures FindEvent(db, run) == if run < |db.runs| then Some(run) else None
    ensures FindPendingEvent(db, run) == if run < |db.runs| && !db.outbox[run].dispatched then Some(run) else None
  {
    if run < |db.runs| {
      assert db.outbox[run].run == run;
    }
  }

  lemma DispatchOneMarks(db: DB, run: nat, enqueued: bool)
    requires Numbered(db)
    ensures var (db', ok) := DispatchOne(db, run, enqueued);
            && ok == (run < |db.runs| && !db.outbox[run].dispatched && enqueued)
            && Marked(db, db', if ok then {run} else {})
  {
    hide FindEvent, FindPendingEvent, Backoff;
    OwnEvent(db, run);
  }

  lemma MarkedTwice(db: DB, mid: DB, db': DB, first: set<nat>, second: set<nat>)
    requires Marked(db, mid, first) && Marked(mid, db', second) && first !! second
    ensures Marked(db, db', first + second)
  {
  }

  lemma MarkedNumbers(db: DB, mid: DB, taken: set<nat>)
    requires Marked(db, mid, taken)
    ensures Numbered(mid)
  {
  }

  lemma TakesOneMore(db: DB, mid: DB, front: seq<nat>, run: nat, enqueued: nat -> bool)
    requires Numbered(db) && Marked(db, mid, Taken(db, front, enqueued))
    ensures Taken(db, front + [run], enqueued)
         == Taken(db, front, enqueued)
            + if run < |mid.runs| && !mid.outbox[run].dispatched && enqueued(run) then {run} else {}
    ensures run < |mid.runs| && !mid.outbox[run].dispatched ==> run !in Taken(db, front, enqueued)
  {
  }

  lemma DispatchesOneMore(db: DB, mid: DB, front: seq<nat>, run: nat, enqueued: nat -> bool)
    requires Numbered(db) && Marked(db, mid, Taken(db, front, enqueued))
    ensures var (db', ok) := DispatchOne(mid, run, enqueued(run));
            && Marked(db, db', Taken(db, front + [run], enqueued))
            && |Taken(db, front + [run], enqueued)| == |Taken(db, front, enqueued)| + if ok then 1 else 0
  {
    hide DispatchOne, Marked, Taken;
    MarkedNumbers(db, mid, Taken(db, front, enqueued));
    DispatchOneMarks(mid, run, enqueued(run));
    var (db', ok) := DispatchOne(mid, run, enqueued(run));
    TakesOneMore(db, mid, front, run, enqueued);
    MarkedTwice(db, mid, db', Taken(db, front, enqueued), if ok then {run} else {});
  }

  /** Whatever rows a pass selects, in whatever order and however often, it dispatches exactly the
      pending ones Redis takes, queues those still waiting, and returns how many they are. */
  lemma {:induction false} PassDispatches(db: DB, ids: seq<nat>, enqueued: nat -> bool)
    requires Numbered(db)
    ensures Marked(db, DispatchEach(db, ids, enqueued).0, Taken(db, ids, enqueued))
    ensures DispatchEach(db, ids, enqueued).1 == |Taken(db, ids, enqueued)|
    decreases |ids|
  {
    if |ids| > 0 {
      var front, run := ids[..|ids| - 1], ids[|ids| - 1];
      PassDispatches(db, front, enqueued);
      hide DispatchOne, Marked, Taken, Numbered;
      DispatchesOneMore(db, DispatchEach(db, front, enqueued).0, front, run, enqueued);
      assert ids == front + [run];
    }
  }

  lemma PassNumbers(db: DB, ids: seq<nat>, enqueued: nat -> bool)
    requires Numbered(db)
    ensures Numbered(DispatchEach(db, ids, enqueued).0)
  {
    hide Numbered, Marked, Taken, DispatchEach;
    PassDispatches(db, ids, enqueued);
    MarkedNumbers(db, DispatchEach(db, ids, enqueued).0, Taken(db, ids, enqueued));
  }

  // ----- one dispatch -----

  /** Seconds to wait after this many failed attempts. */
  const DELAYS: seq<nat> := [1, 2, 4, 8, 16, 32, 64, 128, 256]

  function Delay(attempts: nat): nat {
    DELAYS[if attempts < 8 then attempts else 8]
  }

  lemma BackoffIsDelay(attempts: nat)
    ensures Backoff(attempts) == Delay(attempts)
  {
    assert Power2(8) == 2 * Power2(7) == 4 * Power2(6) == 8 * Power2(5) == 16 * Power2(4) == 256;
    assert Power2(4) == 2 * Power2(3) == 4 * Power2(2) == 8 * Power2(1) == 16 * Power2(0);
  }

  /** What becomes of an event that is tried `times` times at one instant: nothing if it was dispatched, one
      dispatch if Redis takes the job, and otherwise as many counted failures and the delay they call for. */
  function Tried(e: OutboxEvent, now: nat, enqueued: bool, times: nat): OutboxEvent {
    if e.dispatched || times == 0 then e
    else if enqueued then e.(dispatched := true)
    else e.(attempts := e.attempts + times, availableAt := now + Delay(e.attempts + times))
  }

  /** Each event has been tried so many times, the waiting runs of dispatched jobs are queued, and nothing else
      has changed. */
  ghost predicate TriedAll(db: DB, db': DB, enqueued: nat -> bool, times: multiset<nat>) {
    && Numbered(db) && |db'.outbox| == |db.outbox| && |db'.runs| == |db.runs|
    && db' == db.(outbox := db'.outbox, runs := db'.runs)
    && forall run :: 0 <= run < |db.runs| ==>
        && db'.outbox[run] == Tried(db.outbox[run], db.now, enqueued(run), times[run])
        && db'.runs[run] == if !db.outbox[run].dispatched && db'.outbox[run].dispatched
                               && db.runs[run].status == PendingDispatch
                            then db.runs[run].(status := Queued) else db.runs[run]
  }

  /** dispatch_run on its own, whichever way the enqueue goes. */
  lemma DispatchOneTries(db: DB, run: nat, enqueued: nat -> bool)
    requires Numbered(db)
    ensures TriedAll(db, DispatchOne(db, run, enqueued(run)).0, enqueued, multiset{run})
  {
    hide FindEvent, FindPendingEvent, Backoff, Delay;
    OwnEvent(db, run);
    if run < |db.runs| {
      BackoffIsDelay(db.outbox[run].attempts + 1);
    }
  }

  lemma TriedTwice(db: DB, mid: DB, db': DB, enqueued: nat -> bool, times: multiset<nat>, run: nat)
    requires TriedAll(db, mid, enqueued, times) && TriedAll(mid, db', enqueued, multiset{run})
    ensures TriedAll(db, db', enqueued, times + multiset{run})
  {
    hide Delay;
  }

  /** A whole pass, over any rows: each event is tried as often as it was selected. */
  lemma {:induction false} PassTries(db: DB, ids: seq<nat>, enqueued: nat -> bool)
    requires Numbered(db)
    ensures TriedAll(db, DispatchEach(db, ids, enqueued).0, enqueued, multiset(ids))
    decreases |ids|
  {
    hide DispatchOne, Numbered;
    if |ids| == 0 {
      hide Delay;
    } else {
      hide TriedAll;
      var front, run := ids[..|ids| - 1], ids[|ids| - 1];
      var before := DispatchEach(db, front, enqueued).0;
      PassTries(db, front, enqueued);
      PassNumbers(db, front, enqueued);
      DispatchOneTries(before, run, enqueued);
      TriedTwice(db, before, DispatchOne(before, run, enqueued(run)).0, enqueued, multiset(front), run);
      assert ids == front + [run];
    }
  }

  /** dispatch_run at one instant after another, Redis refusing every time. */
  function Refused(db: DB, run: nat, clocks: seq<nat>): DB {
    if |clocks| == 0 then db
    else DispatchOne(Refused(db, run, clocks[..|clocks| - 1]).(now := clocks[|clocks| - 1]), run, false).0
  }

  /** The event's row after n failures, the last of them at `now`. */
  function Failed(db: DB, run: nat, n: nat, now: nat): DB
    requires run < |db.outbox|
  {
    db.(now := now, outbox := db.outbox[run := db.outbox[run].(attempts := n, availableAt := now + Delay(n))])
  }

  lemma OneRefusal(db: DB, run: nat, now: nat)
    requires Numbered(db) && run < |db.outbox| && !db.outbox[run].dispatched
    ensures DispatchOne(db.(now := now), run, false).0 == Failed(db, run, db.outbox[run].attempts + 1, now)
  {
    hide DispatchOne, Delay;
    var (before, after) := (db.(now := now), DispatchOne(db.(now := now), run, false).0);
    DispatchOneTries(before, run, (r: nat) => false);
    assert after.runs == db.runs;
    assert after.outbox == Failed(db, run, db.outbox[run].attempts + 1, now).outbox;
  }

  /** n refusals are counted one by one, and the last of them sets the delay: 2, 4, 8, ..., 256 seconds. */
  lemma {:induction false} RefusalsCount(db: DB, run: nat, clocks: seq<nat>)
    requires Numbered(db) && run < |db.outbox| && !db.outbox[run].dispatched && |clocks| > 0
    ensures Refused(db, run, clocks) == Failed(db, run, db.outbox[run].attempts + |clocks|, clocks[|clocks| - 1])
    decreases |clocks|
  {
    hide DispatchOne, Delay;
    var m := |clocks| - 1;
    if m > 0 {
      RefusalsCount(db, run, clocks[..m]);
    }
    OneRefusal(Refused(db, run, clocks[..m]), run, clocks[m]);
  }

  // ----- what a pass selects, and what passes leave -----

  /** A pending event whose retry delay is over. */
  predicate Due(db: DB, i: nat)
    requires i < |db.outbox|
  {
    !db.outbox[i].dispatched && db.outbox[i].availableAt <= db.now
  }

  /** A new event is due at once, and one that was refused is due again when its delay is over. */
  lemma DueWhen(db: DB, run: nat, n: nat, last: nat, now: nat)
    requires run < |db.outbox| && !db.outbox[run].dispatched
    ensures Due(db.(outbox := db.outbox[run := OutboxEvent(run, false, 0, db.now)]), run)
    ensures Due(Failed(db, run, n, last).(now := now), run) <==> now >= last + Delay(n)
  {
  }

  /** The runs of the due events among the first n, oldest first. */
  function DueRuns(db: DB, n: nat): seq<nat>
    requires n <= |db.outbox|
  {
    if n == 0 then []
    else DueRuns(db, n - 1) + if Due(db, n - 1) then [db.outbox[n - 1].run] else []
  }

  /** The rows dispatch_pending selects. */
  function Selected(db: DB, limit: nat): seq<nat> {
    var due := DueRuns(db, |db.outbox|);
    if |due| <= limit then due else due[..limit]
  }

  /** What a pass over `ids` leaves of the outbox: the rows of `ids` are dispatched or put off, and the
      others are as they were. */
  ghost predicate Handled(db: DB, db': DB, ids: seq<nat>) {
    && |db'.outbox| == |db.outbox| && db'.now == db.now
    && (forall i :: 0 <= i < |db.outbox| && i in ids ==> !Due(db', i))
    && (forall i :: 0 <= i < |db.outbox| && i !in ids ==> db'.outbox[i] == db.outbox[i])
  }

  lemma PassHandles(db: DB, ids: seq<nat>, enqueued: nat -> bool)
    requires Numbered(db)
    ensures Numbered(DispatchEach(db, ids, enqueued).0) && Handled(db, DispatchEach(db, ids, enqueued).0, ids)
  {
    PassTries(db, ids, enqueued);
    PassNumbers(db, ids, enqueued);
    hide DispatchEach, Delay;
    forall i | 0 <= i < |db.outbox| && i in ids ensures !Due(DispatchEach(db, ids, enqueued).0, i) {
      assert multiset(ids)[i] > 0;
      DelaysAreReal(db.outbox[i].attempts + multiset(ids)[i]);
    }
  }

  lemma DelaysAreReal(attempts: nat)
    ensures 1 <= Delay(attempts) <= 256
  {
  }

  lemma {:induction false} DueIsOrdered(db: DB, n: nat)
    requires Numbered(db) && n <= |db.outbox|
    ensures forall j :: 0 <= j < |DueRuns(db, n)| ==> DueRuns(db, n)[j] < n && Due(db, DueRuns(db, n)[j])
    ensures forall j, k :: 0 <= j < k < |DueRuns(db, n)| ==> DueRuns(db, n)[j] < DueRuns(db, n)[k]
    decreases n
  {
    if n > 0 {
      DueIsOrdered(db, n - 1);
    }
  }

  lemma {:induction false} DueIsPrefix(db: DB, n: nat, m: nat)
    requires n <= m <= |db.outbox|
    ensures DueRuns(db, n) <= DueRuns(db, m)
    decreases m
  {
    if n < m {
      DueIsPrefix(db, n, m - 1);
    }
  }

  function Drop<T>(s: seq<T>, k: nat): seq<T> {
    if |s| <= k then [] else s[k..]
  }

  /** An event is selected if it is due and fewer than `limit` due ones come before it. */
  lemma SelectedExactlyWhen(db: DB, limit: nat, i: nat)
    requires Numbered(db) && i < |db.outbox|
    ensures i in Selected(db, limit) <==> Due(db, i) && |DueRuns(db, i)| < limit
  {
    var due := DueRuns(db, |db.outbox|);
    DueIsOrdered(db, |db.outbox|);
    DueIsPrefix(db, i + 1, |db.outbox|);
    var before := |DueRuns(db, i)|;
    if Due(db, i) {
      assert DueRuns(db, i + 1)[before] == i && due[before] == i;
    } else {
      assert i !in due;
    }
  }

  lemma {:induction false} DueAfterPass(db: DB, db': DB, limit: nat, n: nat)
    requires Numbered(db) && Numbered(db') && n <= |db.outbox| && Handled(db, db', Selected(db, limit))
    ensures DueRuns(db', n) == Drop(DueRuns(db, n), limit)
    decreases n
  {
    hide Selected;
    if n > 0 {
      DueAfterPass(db, db', limit, n - 1);
      SelectedExactlyWhen(db, limit, n - 1);
    }
  }

  /** dispatch_pending: the selection, then each of its rows. */
  function DispatchPass(db: DB, limit: nat, enqueued: nat -> bool): (DB, nat) {
    DispatchEach(db, Selected(db, limit), enqueued)
  }

  /** A pass takes the oldest `limit` due events off what is due: those Redis takes are dispatched, the
      others wait for their next attempt. */
  lemma PassShortens(db: DB, limit: nat, enqueued: nat -> bool)
    requires Numbered(db)
    ensures var db' := DispatchPass(db, limit, enqueued).0;
            && Numbered(db') && |db'.outbox| == |db.outbox|
            && DueRuns(db', |db.outbox|) == Drop(DueRuns(db, |db.outbox|), limit)
            && (forall run :: run in Selected(db, limit) && enqueued(run) ==>
                              run < |db.outbox| && db'.outbox[run].dispatched)
            && (forall i :: 0 <= i < |db.outbox| && db.outbox[i].dispatched ==> db'.outbox[i].dispatched)
  {
    DueIsOrdered(db, |db.outbox|);
    PassHandles(db, Selected(db, limit), enqueued);
    PassDispatches(db, Selected(db, limit), enqueued);
    DueAfterPass(db, DispatchPass(db, limit, enqueued).0, limit, |db.outbox|);
  }

  /** Passes in a row, each with what Redis does during it. */
  function Passes(db: DB, limit: nat, redis: seq<nat -> bool>): DB {
    if |redis| == 0 then db
    else DispatchPass(Passes(db, limit, redis[..|redis| - 1]), limit, redis[|redis| - 1]).0
  }

  predicate AlwaysUp(redis: seq<nat -> bool>, run: nat) {
    forall k :: 0 <= k < |redis| ==> redis[k](run)
  }

  lemma {:induction false} PassesShorten(db: DB, limit: nat, redis: seq<nat -> bool>)
    requires Numbered(db)
    ensures var db' := Passes(db, limit, redis);
            && Numbered(db') && |db'.outbox| == |db.outbox|
            && DueRuns(db', |db.outbox|) == Drop(DueRuns(db, |db.outbox|), |redis| * limit)
    decreases |redis|
  {
    hide Numbered, DispatchPass;
    if |redis| > 0 {
      var n := |redis| - 1;
      PassesShorten(db, limit, redis[..n]);
      PassShortens(Passes(db, limit, redis[..n]), limit, redis[n]);
      assert |redis| * limit == n * limit + limit;
    }
  }

  lemma PassTakes(db: DB, limit: nat, enqueued: nat -> bool, j: nat)
    requires Numbered(db) && j < limit && j < |DueRuns(db, |db.outbox|)| && enqueued(DueRuns(db, |db.outbox|)[j])
    ensures var (run, db') := (DueRuns(db, |db.outbox|)[j], DispatchPass(db, limit, enqueued).0);
            run < |db'.outbox| && db'.outbox[run].dispatched
  {
    hide Numbered, DispatchPass, DueRuns;
    PassShortens(db, limit, enqueued);
    assert Selected(db, limit)[j] == DueRuns(db, |db.outbox|)[j];
  }

  lemma {:induction false} PassesDispatch(db: DB, limit: nat, redis: seq<nat -> bool>, j: nat)
    requires Numbered(db) && j < |DueRuns(db, |db.outbox|)| && j < |redis| * limit
    requires AlwaysUp(redis, DueRuns(db, |db.outbox|)[j])
    ensures var (run, db') := (DueRuns(db, |db.outbox|)[j], Passes(db, limit, redis));
            run < |db'.outbox| && db'.outbox[run].dispatched
    decreases |redis|
  {
    hide Numbered, DispatchPass, DueRuns, Selected;
    var n := |redis| - 1;
    var before := Passes(db, limit, redis[..n]);
    PassesShorten(db, limit, redis[..n]);
    assert |redis| * limit == n * limit + limit;
    if j < n * limit {
      PassesDispatch(db, limit, redis[..n], j);
      PassShortens(before, limit, redis[n]);
    } else {
      PassTakes(before, limit, redis[n], j - n * limit);
    }
  }

  /** Of n due events, ceil(n / limit) passes leave none due, whatever Redis does; and whichever of them
      Redis takes throughout is dispatched. */
  lemma PassesDrain(db: DB, limit: nat, redis: seq<nat -> bool>)
    requires Numbered(db) && |redis| * limit >= |DueRuns(db, |db.outbox|)|
    ensures var (due, db') := (DueRuns(db, |db.outbox|), Passes(db, limit, redis));
            && |db'.outbox| == |db.outbox| && DueRuns(db', |db'.outbox|) == []
            && forall run :: run in due && AlwaysUp(redis, run) ==> run < |db'.outbox| && db'.outbox[run].dispatched
  {
    hide Numbered, AlwaysUp;
    PassesShorten(db, limit, redis);
    var due := DueRuns(db, |db.outbox|);
    forall j | 0 <= j < |due| && AlwaysUp(redis, due[j])
      ensures due[j] < |db.outbox| && Passes(db, limit, redis).outbox[due[j]].dispatched
    {
      PassesDispatch(db, limit, redis, j);
    }
  }
}
