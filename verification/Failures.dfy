/** What becomes of a run whose worker meets an exception or somebody else's unfinished checkpoint
    (zomega/jobs.py:203-218). */
module Failures {
  import opened Rows
  import opened Tables
  import opened Pricing
  import opened Billing
  import opened RunBlocks
  import opened BooksInvariant
  import opened Transactions
  import opened Consistency
  import opened Machine
  import opened Executor

  /** The blocks inside execute_run's try. */
  predicate InTry(pc: Pc) {
    pc.Looping? || pc.Preparing? || pc.Calling? || pc.Recording? || pc.Settling? || pc.Concluding? || pc.Logging?
  }

  /** An exception inside the try is answered by the refund, with its message; one outside ends the worker; and a
      worker that hangs raises none. */
  lemma RaisingFails(c: Catalog, db: DB, run: nat, pc: Pc, code: string)
    ensures StepWorker(c, db, run, pc, Raise(code)).0 == db
    ensures InTry(pc) ==> StepWorker(c, db, run, pc, Raise(code)).1 == Failing(code)
    ensures !InTry(pc) && !pc.Hanging? ==> StepWorker(c, db, run, pc, Raise(code)).1 == Finished
  {
  }

  /** The run's hold, if it was open, is back with its tenant in full. */
  ghost predicate Returned(b: Books, b': Books, run: nat)
    requires run < |b.reservations|
  {
    var r := b.reservations[run];
    if r.status != Open then b' == b
    else
      && r.tenant < |b.wallets|
      && b'.reservations == b.reservations[run := r.(status := Refunded, settled := 0)]
      && b'.wallets == b.wallets[r.tenant := Wallet(b.wallets[r.tenant].available + r.amount,
                                                    b.wallets[r.tenant].reserved - r.amount,
                                                    b.wallets[r.tenant].version + 1)]
  }

  /** The run is FAIL with this message, its hold is returned, and nothing else has changed but the ledger:
      checkpoints stay, and so does what was charged before. */
  ghost predicate EndsFailed(db: DB, end: DB, run: nat, code: string) {
    && run < |db.runs| && run < |db.books.reservations|
    && end == db.(books := end.books, runs := db.runs[run := db.runs[run].(status := Fail, error := Some(code))])
    && Returned(db.books, end.books, run)
  }

  lemma RefundReturns(b: Books, run: nat, now: nat)
    requires RowsOk(b, now) && run < |b.reservations|
    ensures RefundRun(b, run, now).Committed? && Returned(b, RefundRun(b, run, now).value, run)
  {
    assert ReservationOk(b.reservations[run], run, |b.wallets|, now);
    RefundCloses(b, run, now);
  }

  /** A run whose agent or skill the catalog does not know fails with the key error, where nothing else stops it. */
  lemma UnknownSkillFails(c: Catalog, db: DB, run: nat, at: Local)
    requires run < |db.runs| && (Workflow(c, db.runs[run]).Some? ==> at.k < |Workflow(c, db.runs[run]).value|)
    requires Workflow(c, db.runs[run]).None? || Workflow(c, db.runs[run]).value[at.k] !in c.skills
    ensures StepWorker(c, db, run, Preparing(at), Proceed) == (db, Failing("KeyError"))
    ensures Workflow(c, db.runs[run]).None? || !db.runs[run].cancelRequested ==>
              StepWorker(c, db, run, Looping(at), Proceed) == (db, Failing("KeyError"))
  {
  }

  /** Should the refund itself fail, the worker ends and the run stays as it was. */
  lemma FailedRefundEnds(c: Catalog, db: DB, run: nat, code: string)
    requires RefundRun(db.books, run, db.now).RolledBack?
    ensures StepWorker(c, db, run, Failing(code), Proceed) == (db, Finished)
  {
    hide RefundRun;
  }

  lemma FailureRefunds(c: Catalog, db: DB, run: nat, code: string, provider: nat -> Response)
    requires Consistent(db) && run < |db.runs|
    ensures EndsFailed(db, Solo(c, db, run, Failing(code), provider), run, code)
  {
    assert RowsOk(db.books, db.now) && |db.books.reservations| == |db.runs|;
    hide Consistent, RowsOk, Solo, RefundRun, Returned;
    RefundReturns(db.books, run, db.now);
    var refunded := WithBooks(db, RefundRun(db.books, run, db.now));
    AbortIsSolo(c, db, refunded, run, code, provider);
    assert Closed(db.runs[run], Failed(code)) == db.runs[run].(status := Fail, error := Some(code));
  }

  /** A provider that errs: the run fails with the error and keeps its checkpoints, the unfinished one among
      them; its hold goes back. */
  lemma ErringCallFails(c: Catalog, db: DB, run: nat, at: Local, code: string, provider: nat -> Response)
    requires Consistent(db) && run < |db.runs| && provider(at.k) == Errored(code)
    ensures EndsFailed(db, Solo(c, db, run, Calling(at), provider), run, code)
  {
    RaisingFails(c, db, run, Calling(at), code);
    hide Consistent, EndsFailed;
    assert Stepped(c, db, run, Calling(at), provider) == (db, Failing(code));
    FailureRefunds(c, db, run, code, provider);
  }

  /** What a worker meets when it prepares a skill: a finished checkpoint is replayed with its own answer and
      charge, an unfinished one is ambiguous, and a new one is inserted unless another of the run has the skill. */
  lemma PreparingDecides(db: DB, run: nat, k: nat, skill: string)
    ensures var (db', met) := Prepare(db, run, k, skill, false);
            && (met.Replay? <==> (run, k) in db.executions && db.executions[(run, k)].Completed?)
            && (met.Replay? ==>
                  db.executions[(run, k)] == Completed(db.executions[(run, k)].skill, met.answer, met.charged))
            && (met.Ambiguous? <==> (run, k) in db.executions && db.executions[(run, k)].InFlight?)
            && (met.Fresh? <==>
                  (run, k) !in db.executions
                  && forall key :: key in db.executions && key.0 == run ==> db.executions[key].skill != skill)
            && db' == if met.Fresh? then db.(executions := db.executions[(run, k) := InFlight(skill)]) else db
  {
  }

  /** A worker that finds the checkpoint of its next skill RUNNING neither calls nor refunds: it blocks the run and
      leaves the hold and the checkpoint as they are. */
  lemma AmbiguousStepBlocks(c: Catalog, db: DB, run: nat, at: Local, provider: nat -> Response)
    requires run < |db.runs| && SkillAt(c, db.runs[run], at.k).Some?
    requires (run, at.k + 1) in db.executions && db.executions[(run, at.k + 1)].InFlight?
    ensures Solo(c, db, run, Preparing(at), provider)
         == db.(runs := db.runs[run := db.runs[run].(status := Blocked, error := Some("AMBIGUOUS_PROVIDER_STATE"))])
  {
    hide SkillAt;
    var blocked := db.(runs := db.runs[run := db.runs[run].(status := Blocked, error := Some(AMBIGUOUS))]);
    assert Stepped(c, db, run, Preparing(at), provider) == (db, MarkingBlocked);
    assert Stepped(c, db, run, MarkingBlocked, provider) == (blocked, Finished);
    assert Solo(c, db, run, MarkingBlocked, provider) == Solo(c, blocked, run, Finished, provider);
  }
}
