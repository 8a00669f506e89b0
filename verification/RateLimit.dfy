/** The fixed-window counter of zomega/rate_limit.py over timed traces. INCR and TTL run in one
    Redis transaction; the EXPIRE that may follow is a second command, so it can be lost, or
    arrive late, even during a later lifetime of the key. Times are in milliseconds. */
module RateLimit {
  import opened Rows

  const MINUTE: nat := 60000

  /** The stored counter. One whose time is up counts as absent. */
  datatype Cell = Cell(count: nat, expiresAt: Option<nat>)

  predicate Live(cell: Option<Cell>, at: nat) {
    cell.Some? && (cell.value.expiresAt.Some? ==> at < cell.value.expiresAt.value)
  }

  /** INCR */
  function Incremented(cell: Option<Cell>, at: nat): Cell {
    if Live(cell, at) then cell.value.(count := cell.value.count + 1) else Cell(1, None)
  }

  /** EXPIRE 60 */
  function GivenExpiry(cell: Option<Cell>, at: nat): Option<Cell> {
    if Live(cell, at) then Some(cell.value.(expiresAt := Some(at + MINUTE))) else cell
  }

  /** A counter that is given its expiry counts calls for the next sixty seconds and no longer; the first call
      after that starts from one again, and a counter without an expiry goes on for good. */
  lemma WindowLasts(cell: Cell, at: nat, later: nat)
    requires Live(Some(cell), at)
    ensures var given := GivenExpiry(Some(cell), at);
            && given.Some? && given.value.count == cell.count
            && (Live(given, later) <==> later < at + 60000)
            && Incremented(given, later).count == if later < at + 60000 then cell.count + 1 else 1
    ensures cell.expiresAt.None? ==> Incremented(Some(cell), later) == Cell(cell.count + 1, None)
    ensures Incremented(None, at) == Cell(1, None)
  {
  }

  datatype Event = Call(at: nat) | ExpireArrives(at: nat)

  predicate Timed(events: seq<Event>) {
    forall i, j :: 0 <= i <= j < |events| ==> events[i].at <= events[j].at
  }

  /** The counter after the first n events of a trace. */
  function CellAfter(events: seq<Event>, n: nat): Option<Cell>
    requires n <= |events|
  {
    if n == 0 then None
    else
      var before := CellAfter(events, n - 1);
      match events[n - 1]
      case Call(at) => Some(Incremented(before, at))
      case ExpireArrives(at) => GivenExpiry(before, at)
  }

  /** The count call i gets back. */
  function Count(events: seq<Event>, i: nat): nat
    requires i < |events| && events[i].Call?
  {
    CellAfter(events, i + 1).value.count
  }

  predicate Admitted(events: seq<Event>, i: nat, limit: nat) {
    i < |events| && events[i].Call? && Count(events, i) <= limit
  }

  /** The call that created the counter last seen among the first n events. */
  function Birth(events: seq<Event>, n: nat): (b: Option<nat>)
    requires n <= |events|
    ensures b.Some? ==> b.value < n
    ensures b.Some? <==> CellAfter(events, n).Some?
  {
    if n == 0 then None
    else if events[n - 1].Call? && !Live(CellAfter(events, n - 1), events[n - 1].at) then Some(n - 1)
    else Birth(events, n - 1)
  }

  /** The calls among the first n events from call b on. */
  function CallsFrom(events: seq<Event>, b: nat, n: nat): nat
    requires n <= |events|
  {
    if n <= b then 0 else CallsFrom(events, b, n - 1) + if events[n - 1].Call? then 1 else 0
  }

  /** A counter outlives its creation by a minute, and every event before its expiry; it counts
      the calls since its creation. */
  lemma {:induction false} Lifetime(events: seq<Event>, n: nat)
    requires Timed(events) && n <= |events|
    ensures Birth(events, n).None? ==> forall i :: 0 <= i < n ==> !events[i].Call?
    ensures Birth(events, n).Some? ==>
              && events[Birth(events, n).value].Call?
              && CellAfter(events, n).value.count == CallsFrom(events, Birth(events, n).value, n)
              && var e := CellAfter(events, n).value.expiresAt;
              && (e.Some? ==> events[Birth(events, n).value].at + MINUTE <= e.value)
              && (e.Some? && Live(CellAfter(events, n), events[n - 1].at) ==> events[n - 1].at < e.value)
  {
    if n > 0 {
      Lifetime(events, n - 1);
      assert n > 1 ==> events[n - 2].at <= events[n - 1].at;
      if Birth(events, n) == Some(n - 1) {
        assert CallsFrom(events, n - 1, n - 1) == 0;
      }
    }
  }

  /** Every call of a lifetime was made while its counter was live, so before the next one was created. */
  lemma {:induction false} CallsPrecedeNextBirth(events: seq<Event>, i: nat, n: nat)
    requires Timed(events) && i < n < |events| && events[i].Call?
    requires events[n].Call? && !Live(CellAfter(events, n), events[n].at)
    ensures events[i].at < events[n].at
    ensures events[Birth(events, i + 1).value].at + MINUTE <= events[n].at
  {
    Lifetime(events, n);
    Lifetime(events, i + 1);
    StillBefore(events, i, n);
  }

  lemma {:induction false} StillBefore(events: seq<Event>, i: nat, n: nat)
    requires Timed(events) && i < n <= |events| && events[i].Call?
    ensures CellAfter(events, n).Some? && Birth(events, n).Some? && Birth(events, i + 1).Some?
    ensures CellAfter(events, n).value.expiresAt.Some? ==>
              && events[i].at < CellAfter(events, n).value.expiresAt.value
              && events[Birth(events, i + 1).value].at + MINUTE <= CellAfter(events, n).value.expiresAt.value
    decreases n
  {
    Lifetime(events, i + 1);
    Lifetime(events, n);
    if i + 1 < n {
      StillBefore(events, i, n - 1);
      assert events[Birth(events, i + 1).value].at <= events[i].at <= events[n - 1].at;
    }
  }

  /** The admitted calls of the lifetime that call b started. */
  ghost function AdmittedIn(events: seq<Event>, b: nat, limit: nat): set<nat> {
    set i | 0 <= i < |events| && Admitted(events, i, limit) && Birth(events, i + 1) == Some(b)
  }

  ghost function AdmittedBetween(events: seq<Event>, from: nat, until: nat, limit: nat): set<nat> {
    set i | 0 <= i < |events| && Admitted(events, i, limit) && from <= events[i].at <= until
  }

  lemma {:induction false} CallsGrow(events: seq<Event>, b: nat, m: nat, n: nat)
    requires b <= m <= n <= |events|
    ensures CallsFrom(events, b, m) <= CallsFrom(events, b, n)
    ensures m < n && events[n - 1].Call? ==> CallsFrom(events, b, m) < CallsFrom(events, b, n)
    decreases n
  {
    if m < n {
      CallsGrow(events, b, m, n - 1);
    }
  }

  /** A set of calls with pairwise different counts from 1 to `limit` has at most `limit` members. */
  lemma {:induction false} DistinctCountsBound(events: seq<Event>, calls: set<nat>, limit: nat)
    requires forall i :: i in calls ==> i < |events| && events[i].Call? && 1 <= Count(events, i) <= limit
    requires forall i, j :: i in calls && j in calls && i != j ==> Count(events, i) != Count(events, j)
    ensures |calls| <= limit
    decreases limit
  {
    if limit == 0 {
      assert forall i :: i !in calls;
      assert calls == {};
    } else if exists i :: i in calls && Count(events, i) == limit {
      var i :| i in calls && Count(events, i) == limit;
      DistinctCountsBound(events, calls - {i}, limit - 1);
    } else {
      DistinctCountsBound(events, calls, limit - 1);
    }
  }

  /** One counter lifetime admits at most `limit` calls, however its EXPIREs are lost or delayed. */
  lemma LifetimeAdmits(events: seq<Event>, b: nat, limit: nat)
    requires Timed(events)
    ensures |AdmittedIn(events, b, limit)| <= limit
  {
    var calls := AdmittedIn(events, b, limit);
    forall i | i in calls ensures Count(events, i) == CallsFrom(events, b, i + 1) && b <= i && 1 <= Count(events, i) {
      Lifetime(events, i + 1);
      CallsGrow(events, b, b, i + 1);
    }
    forall i, j | i in calls && j in calls && i != j ensures Count(events, i) != Count(events, j) {
      if i < j {
        CallsGrow(events, b, i + 1, j + 1);
      } else {
        CallsGrow(events, b, j + 1, i + 1);
      }
    }
    DistinctCountsBound(events, calls, limit);
  }

  /** A call is admitted exactly when fewer than `limit` calls of its lifetime came before it. */
  lemma AdmitsTheFirstCalls(events: seq<Event>, i: nat, limit: nat)
    requires Timed(events) && i < |events| && events[i].Call?
    ensures Birth(events, i + 1).Some?
    ensures Admitted(events, i, limit) <==> CallsFrom(events, Birth(events, i + 1).value, i) < limit
  {
    Lifetime(events, i + 1);
  }

  /** A call's lifetime starts at a call that found no live counter. */
  lemma {:induction false} BirthFoundNothing(events: seq<Event>, n: nat)
    requires n <= |events| && Birth(events, n).Some?
    ensures var b := Birth(events, n).value;
            && b < n && events[b].Call? && !Live(CellAfter(events, b), events[b].at) && Birth(events, b + 1) == Some(b)
  {
    if !(events[n - 1].Call? && !Live(CellAfter(events, n - 1), events[n - 1].at)) {
      BirthFoundNothing(events, n - 1);
    }
  }

  /** Births are ordered as the calls they serve. */
  lemma {:induction false} BirthGrows(events: seq<Event>, m: nat, n: nat)
    requires m <= n <= |events| && Birth(events, m).Some?
    ensures Birth(events, n).Some? && Birth(events, m).value <= Birth(events, n).value
    ensures Birth(events, n).value < m ==> Birth(events, m) == Birth(events, n)
    decreases n
  {
    BirthFoundNothing(events, m);
    if m < n {
      BirthGrows(events, m, n - 1);
      BirthFoundNothing(events, n - 1);
    }
  }

  /** No minute meets three lifetimes. */
  lemma TwoLifetimesAtMost(events: seq<Event>, i: nat, j: nat, k: nat)
    requires Timed(events) && i < j < k < |events| && events[i].Call? && events[j].Call? && events[k].Call?
    requires Birth(events, i + 1) != Birth(events, j + 1) && Birth(events, j + 1) != Birth(events, k + 1)
    ensures events[i].at + 60000 < events[k].at
  {
    hide CellAfter, Birth, Live;
    Lifetime(events, i + 1);
    BirthGrows(events, i + 1, j + 1);
    BirthGrows(events, j + 1, k + 1);
    BirthFoundNothing(events, j + 1);
    BirthFoundNothing(events, k + 1);
    var b, d := Birth(events, j + 1).value, Birth(events, k + 1).value;
    CallsPrecedeNextBirth(events, i, b);
    CallsPrecedeNextBirth(events, j, d);
  }

  /** The calls of a minute that miss its first lifetime all belong to one other. */
  lemma OneOtherLifetime(events: seq<Event>, from: nat, limit: nat, first: nat, second: nat, k: nat)
    requires Timed(events)
    requires first < second <= k && {first, second, k} <= AdmittedBetween(events, from, from + 60000, limit)
    requires Birth(events, first + 1) != Birth(events, second + 1)
    ensures Birth(events, second + 1) == Birth(events, k + 1)
  {
    hide CellAfter, Birth, Live;
    assert first in {first, second, k} && second in {first, second, k} && k in {first, second, k};
    if Birth(events, second + 1) != Birth(events, k + 1) {
      TwoLifetimesAtMost(events, first, second, k);
    }
  }

  /** Any 60 seconds, end points included, admit at most twice the limit. */
  lemma MinuteAdmits(events: seq<Event>, from: nat, limit: nat)
    requires Timed(events)
    ensures |AdmittedBetween(events, from, from + 60000, limit)| <= 2 * limit
  {
    hide CellAfter, Birth, Live, Admitted;
    var calls := AdmittedBetween(events, from, from + 60000, limit);
    if calls != {} {
      var first := Least(calls);
      var b := BirthOf(events, first, limit);
      var others := set i | i in calls && Birth(events, i + 1) != Some(b);
      LifetimeAdmits(events, b, limit);
      SubsetSize(calls, AdmittedIn(events, b, limit) + others);
      if others != {} {
        var second := Least(others);
        var d := BirthOf(events, second, limit);
        forall k | k in others ensures k in AdmittedIn(events, d, limit) {
          OneOtherLifetime(events, from, limit, first, second, k);
        }
        LifetimeAdmits(events, d, limit);
        SubsetSize(others, AdmittedIn(events, d, limit));
      }
    }
  }

  lemma BirthOf(events: seq<Event>, i: nat, limit: nat) returns (b: nat)
    requires Admitted(events, i, limit)
    ensures Birth(events, i + 1) == Some(b)
  {
    b := Birth(events, i + 1).value;
  }

  lemma {:induction false} Least(s: set<nat>) returns (m: nat)
    requires s != {}
    ensures m in s && forall i :: i in s ==> m <= i
    decreases |s|
  {
    m :| m in s;
    if s != {m} {
      var rest := Least(s - {m});
      assert s == (s - {m}) + {m};
      m := if m < rest then m else rest;
    }
  }

  lemma SubsetSize(a: set<nat>, b: set<nat>)
    requires a <= b
    ensures |a| <= |b|
  {
    assert b == a + (b - a);
  }

  /** The limiter of one tenant. `delivered` is whether the EXPIRE, if one is sent, arrives at once. */
  class Limiter {
    var cell: Option<Cell>
    const limit: nat

    constructor (limit: nat)
      ensures cell == None && this.limit == limit
    {
      this.cell, this.limit := None, limit;
    }

    method Enforce(at: nat, delivered: bool) returns (admitted: bool)
      modifies this`cell
      ensures var incremented := Incremented(old(cell), at);
              && admitted == (incremented.count <= limit)
              && cell == if incremented.expiresAt.None? && delivered
                         then GivenExpiry(Some(incremented), at) else Some(incremented)
    {
      var count, ttl := 1, -1;
      if Live(cell, at) {
        count := cell.value.count + 1;
        if cell.value.expiresAt.Some? {
          ttl := cell.value.expiresAt.value - at;
        }
        cell := Some(Cell(count, cell.value.expiresAt));
      } else {
        cell := Some(Cell(1, None));
      }
      if ttl == -1 && delivered {
        cell := Some(Cell(count, Some(at + MINUTE)));
      }
      return count <= limit;
    }
  }
}
