/** execute_run on its own: one worker, a provider with fixed answers, and no interference. */
module Executor {
  import opened Rows
  import opened Tables
  import opened Pricing
  import opened Billing
  import opened RunBlocks
  import opened Transactions
  import opened Consistency
  import opened Machine

  /** What the provider does when asked for a skill. */
  datatype Response = Answered(answer: Answer) | Errored(code: string)

  function ChoiceAt(pc: Pc, provider: nat -> Response): Choice {
    if pc.Calling? then
      match provider(pc.at.k)
      case Answered(answer) => Reply(answer)
      case Errored(code) => Raise(code)
    else Proceed
  }

  function Stepped(c: Catalog, db: DB, run: nat, pc: Pc, provider: nat -> Response): (DB, Pc) {
    StepWorker(c, db, run, pc, ChoiceAt(pc, provider))
  }

  function Size(c: Catalog, r: Run): nat {
    if Workflow(c, r).Some? then |Workflow(c, r).value| else 0
  }

  function Left(c: Catalog, db: DB, run: nat, at: Local): nat {
    if run < |db.runs| && at.k < Size(c, db.runs[run]) then Size(c, db.runs[run]) - at.k else 0
  }

  /** A worker that writes nothing more: it has returned, or it hangs. */
  predicate Over(pc: Pc) {
    pc.Finished? || pc.Hanging?
  }

  /** Bounds the blocks a worker still has to go through. */
  function Rank(c: Catalog, db: DB, run: nat, pc: Pc): nat {
    match pc
    case Starting => 8 * (if run < |db.runs| then Size(c, db.runs[run]) else 0) + 8
    case Looping(at) => 8 * Left(c, db, run, at) + 7
    case Preparing(at) => 8 * Left(c, db, run, at) + 6
    case Calling(at) => 8 * Left(c, db, run, at) + 5
    case Recording(at, _) => 8 * Left(c, db, run, at) + 4
    case Settling(_, _) => 3
    case Concluding(_, _) => 2
    case Failing(_) => 2
    case Logging => 1
    case MarkingFailed(_) => 1
    case MarkingBlocked => 1
    case Hanging => 0
    case Finished => 0
  }

  /** No step of a worker changes what its run is. */
  lemma StepKeepsIdentity(c: Catalog, db: DB, run: nat, pc: Pc, choice: Choice)
    ensures var db' := StepWorker(c, db, run, pc, choice).0;
            |db'.runs| == |db.runs| && (run < |db.runs| ==> Identity(db'.runs[run]) == Identity(db.runs[run]))
  {
    hide Begin, Prepare, Checkpoint, Close, SettleRun, RefundRun, SkillAt, ChargeFor, NextPc, RaisePc;
    if run < |db.runs| && !choice.Raise? {
      var txn := WorkerTxn(c, db, run, pc);
      match txn
      case BeginRun(_) => BeginKeeps(c, db, run);
      case PrepareStep(_, k, skill) => CheckpointsKeep(c, db, run, k, skill, Answer("", "", 0, 0), 0);
      case RecordStep(_, k, answer, charge) => CheckpointsKeep(c, db, run, k, "", answer, charge);
      case CloseTxn(_, w) => CloseTxnKeeps(c, db, run, w);
      case _ =>
    }
  }

  lemma NextRankDrops(c: Catalog, db: DB, run: nat, pc: Pc, choice: Choice)
    requires !Over(pc) && (pc.Calling? ==> choice.Reply?)
    ensures Rank(c, db, run, NextPc(c, db, run, pc, choice)) < Rank(c, db, run, pc)
  {
    hide SettleRun, RefundRun, HasInFlight, Begin, ChargeFor;
  }

  lemma SameRank(c: Catalog, db: DB, db': DB, run: nat, pc: Pc)
    requires |db'.runs| == |db.runs| && (run < |db.runs| ==> Identity(db'.runs[run]) == Identity(db.runs[run]))
    ensures Rank(c, db', run, pc) == Rank(c, db, run, pc)
  {
  }

  lemma RankDrops(c: Catalog, db: DB, run: nat, pc: Pc, provider: nat -> Response)
    requires !Over(pc)
    ensures var next := Stepped(c, db, run, pc, provider); Rank(c, next.0, run, next.1) < Rank(c, db, run, pc)
  {
    hide NextPc, Apply, WorkerTxn;
    var choice := ChoiceAt(pc, provider);
    var next := Stepped(c, db, run, pc, provider);
    StepKeepsIdentity(c, db, run, pc, choice);
    SameRank(c, db, next.0, run, next.1);
    if !choice.Raise? {
      NextRankDrops(c, db, run, pc, choice);
    }
  }

  /** The database an uninterrupted worker leaves. */
  function Solo(c: Catalog, db: DB, run: nat, pc: Pc, provider: nat -> Response): DB
    decreases Rank(c, db, run, pc)
  {
    if Over(pc) then db
    else
      RankDrops(c, db, run, pc, provider);
      var next := Stepped(c, db, run, pc, provider);
      Solo(c, next.0, run, next.1, provider)
  }

  /** The except branch: the refund, then the status. */
  lemma AbortIsSolo(c: Catalog, before: DB, middle: DB, run: nat, code: string, provider: nat -> Response)
    requires run < |before.runs| && RefundRun(before.books, run, before.now).Committed?
    requires middle == WithBooks(before, RefundRun(before.books, run, before.now))
    ensures Solo(c, before, run, Failing(code), provider) == Close(middle, run, Failed(code))
  {
    hide RefundRun;
    var closed := Close(middle, run, Failed(code));
    assert Stepped(c, before, run, Failing(code), provider) == (middle, MarkingFailed(code));
    assert Stepped(c, middle, run, MarkingFailed(code), provider) == (closed, Finished);
    assert Solo(c, middle, run, MarkingFailed(code), provider) == Solo(c, closed, run, Finished, provider);
  }

  /** Where the worker is after n blocks. */
  function SoloSteps(c: Catalog, db: DB, run: nat, provider: nat -> Response, n: nat): (DB, Pc) {
    if n == 0 then (db, Starting)
    else
      var before := SoloSteps(c, db, run, provider, n - 1);
      Stepped(c, before.0, run, before.1, provider)
  }

  // ----- replaying checkpoints -----

  /** The loop variables rebuilt from the first k checkpoints; None if the loop would not get there. */
  function Rebuilt(c: Catalog, db: DB, run: nat, k: nat): Option<Local>
    requires run < |db.runs|
  {
    if k == 0 then Some(NOTHING_DONE)
    else
      var before := Rebuilt(c, db, run, k - 1);
      var r := db.runs[run];
      if before.None? || AtLoopHead(c, r, before.value) != Preparing(before.value) then None
      else if (run, k) !in db.executions || !db.executions[(run, k)].Completed? then None
      else if before.value.k != k - 1 then None
      else
        var e := db.executions[(run, k)];
        var next := Account(r, before.value, SkillAt(c, r, k - 1).value, e.answer, e.charged);
        if next.Looping? then Some(next.at) else None
  }

  predicate Rebuilds(c: Catalog, db: DB, run: nat, at: Local) {
    run < |db.runs| && Rebuilt(c, db, run, at.k) == Some(at)
  }

  lemma {:induction false} ReplayFrame(c: Catalog, db: DB, db': DB, run: nat, k: nat)
    requires run < |db.runs| && run < |db'.runs| && db'.runs[run] == db.runs[run]
    requires forall j :: 1 <= j <= k && (run, j) in db.executions ==>
                           (run, j) in db'.executions && db'.executions[(run, j)] == db.executions[(run, j)]
    requires Rebuilt(c, db, run, k).Some?
    ensures Rebuilt(c, db', run, k) == Rebuilt(c, db, run, k)
  {
    if k > 0 {
      ReplayFrame(c, db, db', run, k - 1);
    }
  }

  /** A worker at the loop head goes through a PASS checkpoint without touching the database. */
  lemma ReplayOne(c: Catalog, db: DB, run: nat, at: Local, next: Local, provider: nat -> Response)
    requires run < |db.runs| && AtLoopHead(c, db.runs[run], at) == Preparing(at)
    requires (run, at.k + 1) in db.executions && db.executions[(run, at.k + 1)].Completed?
    requires var e := db.executions[(run, at.k + 1)];
             Account(db.runs[run], at, SkillAt(c, db.runs[run], at.k).value, e.answer, e.charged) == Looping(next)
    ensures Solo(c, db, run, Looping(at), provider) == Solo(c, db, run, Looping(next), provider)
  {
    assert Stepped(c, db, run, Looping(at), provider) == (db, Preparing(at));
    assert Stepped(c, db, run, Preparing(at), provider) == (db, Looping(next));
  }

  lemma {:induction false} ReplayAll(c: Catalog, db: DB, run: nat, at: Local, provider: nat -> Response)
    requires Rebuilds(c, db, run, at)
    ensures Solo(c, db, run, Looping(NOTHING_DONE), provider) == Solo(c, db, run, Looping(at), provider)
    decreases at.k
  {
    hide Solo, Account, SkillAt, AtLoopHead;
    if at.k > 0 {
      var before := Rebuilt(c, db, run, at.k - 1).value;
      ReplayAll(c, db, run, before, provider);
      ReplayOne(c, db, run, before, at, provider);
    }
  }

  /** A worker that finds its run RUNNING with no RUNNING checkpoint starts its loop again. */
  lemma Restart(c: Catalog, db: DB, run: nat, provider: nat -> Response)
    requires run < |db.runs| && db.runs[run].status == Running && db.runs[run].startedAt.Some? && !HasInFlight(db, run)
    ensures Solo(c, db, run, Starting, provider) == Solo(c, db, run, Looping(NOTHING_DONE), provider)
  {
    var r := db.runs[run];
    assert r.(status := Running, startedAt := r.startedAt) == r;
    assert db.runs[run := r] == db.runs;
    assert db.(runs := db.runs) == db;
    assert Begin(db, run) == Committed((db, true));
    assert Stepped(c, db, run, Starting, provider) == (db, Looping(NOTHING_DONE));
  }
}
