/** What an undisturbed execution does: the skills it runs, what it charges, and how it ends. */
module Outcomes {
  import opened Rows
  import opened Tables
  import opened Pricing
  import opened Billing
  import opened Admission
  import opened RunBlocks
  import opened BooksInvariant
  import opened Transactions
  import opened Consistency
  import opened Machine
  import opened Executor
  import opened Budget

  /** Every skill is in the catalog and the provider answers for each. */
  predicate Answerable(c: Catalog, r: Run, provider: nat -> Response) {
    && Workflow(c, r).Some?
    && Distinct(Workflow(c, r).value)
    && (forall s :: s in Workflow(c, r).value ==> s in c.skills)
    && forall k :: 0 <= k < Size(c, r) ==> provider(k).Answered?
  }

  function Needs(c: Catalog, r: Run): seq<int>
    requires Workflow(c, r).Some? && forall s :: s in Workflow(c, r).value ==> s in c.skills
  {
    var workflow := Workflow(c, r).value;
    seq(|workflow|, k requires 0 <= k < |workflow| => SkillReservation(c.skills[workflow[k]]))
  }

  function Charges(c: Catalog, r: Run, provider: nat -> Response): seq<int>
    requires Answerable(c, r, provider)
  {
    var workflow := Workflow(c, r).value;
    seq(|workflow|, k requires 0 <= k < |workflow| =>
      SkillCharge(c.skills[workflow[k]], provider(k).answer.tokensIn, provider(k).answer.tokensOut))
  }

  function TokensIn(c: Catalog, r: Run, provider: nat -> Response): seq<int>
    requires Answerable(c, r, provider)
  {
    seq(Size(c, r), k requires 0 <= k < Size(c, r) => provider(k).answer.tokensIn)
  }

  function TokensOut(c: Catalog, r: Run, provider: nat -> Response): seq<int>
    requires Answerable(c, r, provider)
  {
    seq(Size(c, r), k requires 0 <= k < Size(c, r) => provider(k).answer.tokensOut)
  }

  /** What the first k skills add up to: their charges, tokens and outputs, in order. */
  function Tally(c: Catalog, r: Run, provider: nat -> Response, k: nat): Local
    requires Answerable(c, r, provider) && k <= Size(c, r)
  {
    Local(k, Spent(Charges(c, r, provider), k), Spent(TokensIn(c, r, provider), k), Spent(TokensOut(c, r, provider), k),
          seq(k, j requires 0 <= j < k =>
            Step(Workflow(c, r).value[j], provider(j).answer.output, provider(j).answer.responseId,
                 Charges(c, r, provider)[j])))
  }

  lemma TallyGrows(c: Catalog, r: Run, provider: nat -> Response, before: Local, answer: Answer, charge: int)
    requires Answerable(c, r, provider) && before.k < Size(c, r) && before == Tally(c, r, provider, before.k)
    requires answer == provider(before.k).answer && charge == Charges(c, r, provider)[before.k]
    ensures Tally(c, r, provider, before.k + 1)
         == Local(before.k + 1, before.total + charge, before.tokensIn + answer.tokensIn,
                  before.tokensOut + answer.tokensOut,
                  before.steps + [Step(Workflow(c, r).value[before.k], answer.output, answer.responseId, charge)])
  {
  }

  /** The run's checkpoints are exactly 1..k of its workflow, all PASS. */
  ghost predicate DoneUpTo(c: Catalog, db: DB, run: nat, r: Run, k: nat) {
    && (forall j :: (run, j) in db.executions <==> 1 <= j <= k)
    && (forall j :: 1 <= j <= k && (run, j) in db.executions ==>
                      db.executions[(run, j)].Completed? && SkillAt(c, r, j - 1) == Some(db.executions[(run, j)].skill))
  }

  /** A worker about to run skill `at.k`, with nothing in its way. */
  ghost predicate Undisturbed(c: Catalog, db: DB, run: nat, r: Run, at: Local) {
    && run < |db.runs| && run < |db.books.reservations| && db.runs[run] == r
    && RowsOk(db.books, db.now)
    && !r.cancelRequested
    && at.k <= Size(c, r)
    && DoneUpTo(c, db, run, r, at.k)
    && db.books.reservations[run].status == Open
    && db.books.reservations[run].amount == r.maxSpend
    && 0 <= at.total <= r.maxSpend
  }

  /** The database after one more skill. */
  function Extended(c: Catalog, db: DB, run: nat, r: Run, k: nat, answer: Answer): DB
    requires SkillAt(c, r, k).Some?
  {
    db.(executions := db.executions[(run, k + 1) := Completed(SkillAt(c, r, k).value, answer,
                                                              ChargeFor(c, r, k, answer))])
  }

  lemma SkillIsKnown(c: Catalog, r: Run, provider: nat -> Response, k: nat)
    requires Answerable(c, r, provider) && k < Size(c, r)
    ensures SkillAt(c, r, k) == Some(Workflow(c, r).value[k])
    ensures Needs(c, r)[k] == SkillReservation(c.skills[SkillAt(c, r, k).value])
  {
  }

  lemma InsertsFresh(c: Catalog, db: DB, run: nat, r: Run, k: nat, provider: nat -> Response)
    requires DoneUpTo(c, db, run, r, k) && Answerable(c, r, provider) && k < Size(c, r)
    ensures SkillAt(c, r, k).Some?
    ensures Prepare(db, run, k + 1, SkillAt(c, r, k).value, false)
         == (db.(executions := db.executions[(run, k + 1) := InFlight(SkillAt(c, r, k).value)]), Fresh)
  {
    var workflow := Workflow(c, r).value;
    SkillIsKnown(c, r, provider, k);
    assert (run, k + 1) !in db.executions;
    forall key | key in db.executions && key.0 == run ensures db.executions[key].skill != workflow[k] {
      assert key == (run, key.1);
      assert workflow[key.1 - 1] == db.executions[key].skill;
    }
  }

  lemma LoopsToPreparing(c: Catalog, db: DB, run: nat, r: Run, at: Local, provider: nat -> Response)
    requires run < |db.runs| && db.runs[run] == r && !r.cancelRequested
    requires Answerable(c, r, provider) && at.k < Size(c, r) && Needs(c, r)[at.k] <= r.maxSpend - at.total
    ensures Stepped(c, db, run, Looping(at), provider) == (db, Preparing(at))
  {
    hide SettleRun, RefundRun, Begin;
    SkillIsKnown(c, r, provider, at.k);
  }

  lemma PreparesFresh(c: Catalog, db: DB, run: nat, r: Run, at: Local, skill: string, provider: nat -> Response)
    requires run < |db.runs| && db.runs[run] == r && SkillAt(c, r, at.k) == Some(skill)
    requires Prepare(db, run, at.k + 1, skill, false).1 == Fresh
    ensures Stepped(c, db, run, Preparing(at), provider) == (Prepare(db, run, at.k + 1, skill, false).0, Calling(at))
  {
    hide SettleRun, RefundRun, Begin, SkillAt, Prepare;
  }

  lemma Calls(c: Catalog, db: DB, run: nat, at: Local, answer: Answer, provider: nat -> Response)
    requires run < |db.runs| && provider(at.k) == Answered(answer)
    ensures Stepped(c, db, run, Calling(at), provider) == (db, Recording(at, answer))
  {
    hide SettleRun, RefundRun, Begin, SkillAt;
  }

  lemma Records(c: Catalog, db: DB, run: nat, r: Run, at: Local, skill: string, answer: Answer,
                provider: nat -> Response)
    requires run < |db.runs| && db.runs[run] == r && SkillAt(c, r, at.k) == Some(skill)
    ensures Stepped(c, db, run, Recording(at, answer), provider)
         == (Checkpoint(db, run, at.k + 1, answer, ChargeFor(c, r, at.k, answer)),
             Account(r, at, skill, answer, ChargeFor(c, r, at.k, answer)))
  {
    hide SettleRun, RefundRun, Begin, SkillAt, ChargeFor, Account, Checkpoint;
  }

  lemma SoloChain(c: Catalog, db: DB, inserted: DB, extended: DB, run: nat, at: Local, answer: Answer, next: Pc,
                  provider: nat -> Response)
    requires Stepped(c, db, run, Looping(at), provider) == (db, Preparing(at))
    requires Stepped(c, db, run, Preparing(at), provider) == (inserted, Calling(at))
    requires Stepped(c, inserted, run, Calling(at), provider) == (inserted, Recording(at, answer))
    requires Stepped(c, inserted, run, Recording(at, answer), provider) == (extended, next)
    ensures Solo(c, db, run, Looping(at), provider) == Solo(c, extended, run, next, provider)
  {
    hide Stepped;
    assert Solo(c, db, run, Preparing(at), provider) == Solo(c, inserted, run, Calling(at), provider);
    assert Solo(c, inserted, run, Recording(at, answer), provider) == Solo(c, extended, run, next, provider);
  }

  lemma AnswersAt(c: Catalog, r: Run, provider: nat -> Response, k: nat)
    requires Answerable(c, r, provider) && k < Size(c, r)
    ensures provider(k).Answered? && Charges(c, r, provider)[k] == ChargeFor(c, r, k, provider(k).answer)
  {
  }

  lemma OneSkill(c: Catalog, db: DB, run: nat, r: Run, at: Local, provider: nat -> Response) returns (next: Local)
    requires run < |db.runs| && db.runs[run] == r && !r.cancelRequested
    requires DoneUpTo(c, db, run, r, at.k)
    requires Answerable(c, r, provider) && at.k < Size(c, r)
    requires Needs(c, r)[at.k] <= r.maxSpend - at.total
    requires Charges(c, r, provider)[at.k] <= r.maxSpend - at.total
    ensures SkillAt(c, r, at.k).Some?
    ensures at == Tally(c, r, provider, at.k) ==> next == Tally(c, r, provider, at.k + 1)
    ensures next.k == at.k + 1 && next.total == at.total + Charges(c, r, provider)[at.k]
    ensures Solo(c, db, run, Looping(at), provider)
         == Solo(c, Extended(c, db, run, r, at.k, provider(at.k).answer), run, Looping(next), provider)
  {
    hide DoneUpTo, Answerable, Charges, Needs, Stepped, Solo, SkillAt, ChargeFor, Prepare, Size, Workflow, Tally;
    InsertsFresh(c, db, run, r, at.k, provider);
    AnswersAt(c, r, provider, at.k);
    var skill := SkillAt(c, r, at.k).value;
    var answer := provider(at.k).answer;
    var charge := ChargeFor(c, r, at.k, answer);
    var inserted := db.(executions := db.executions[(run, at.k + 1) := InFlight(skill)]);
    var extended := Extended(c, db, run, r, at.k, answer);
    LoopsToPreparing(c, db, run, r, at, provider);
    PreparesFresh(c, db, run, r, at, skill, provider);
    Calls(c, inserted, run, at, answer, provider);
    Records(c, inserted, run, r, at, skill, answer, provider);
    assert extended.executions == inserted.executions[(run, at.k + 1) := extended.executions[(run, at.k + 1)]];
    assert extended == Checkpoint(inserted, run, at.k + 1, answer, charge);
    SoloChain(c, db, inserted, extended, run, at, answer, Account(r, at, skill, answer, charge), provider);
    next := Account(r, at, skill, answer, charge).at;
    SkillIsKnown(c, r, provider, at.k);
    if at == Tally(c, r, provider, at.k) {
      TallyGrows(c, r, provider, at, answer, charge);
    }
  }

  lemma SettlingChain(c: Catalog, db: DB, settled: DB, closed: DB, run: nat, at: Local, verdict: Verdict,
                      provider: nat -> Response)
    requires Stepped(c, db, run, Settling(at, verdict), provider) == (settled, Concluding(at, verdict))
    requires Stepped(c, settled, run, Concluding(at, verdict), provider) == (closed, Logging)
    requires Stepped(c, closed, run, Logging, provider) == (closed, Finished)
    ensures Solo(c, db, run, Settling(at, verdict), provider) == closed
  {
    hide Stepped;
    assert Solo(c, settled, run, Concluding(at, verdict), provider) == Solo(c, closed, run, Logging, provider);
    assert Solo(c, closed, run, Logging, provider) == Solo(c, closed, run, Finished, provider);
  }

  /** From a settling worker with an open reservation and a total in range. */
  lemma Settles(c: Catalog, db: DB, run: nat, at: Local, verdict: Verdict, provider: nat -> Response)
    requires run < |db.runs| && SettleRun(db.books, run, at.total, db.now).Committed?
    ensures Solo(c, db, run, Settling(at, verdict), provider)
         == Close(db.(books := SettleRun(db.books, run, at.total, db.now).value), run, ClosingOf(at, verdict))
  {
    hide SettleRun, AtLoopHead, SkillAt, HasInFlight, Closed, ClosingOf, Solo;
    var settled := db.(books := SettleRun(db.books, run, at.total, db.now).value);
    var closed := Close(settled, run, ClosingOf(at, verdict));
    assert Stepped(c, db, run, Settling(at, verdict), provider) == (settled, Concluding(at, verdict));
    assert Stepped(c, settled, run, Concluding(at, verdict), provider) == (closed, Logging);
    assert Stepped(c, closed, run, Logging, provider) == (closed, Finished);
    SettlingChain(c, db, settled, closed, run, at, verdict, provider);
  }

  /** The run did exactly its first skills, as `done` adds them up: it is charged and settled their
      total, reports their outputs and, if they are all, their tokens. */
  ghost predicate EndsWith(c: Catalog, db: DB, end: DB, run: nat, r: Run, done: Local) {
    && run < |end.runs| && run < |end.books.reservations|
    && end.runs[run].status == (if done.k == Size(c, r) then Pass else Partial)
    && end.runs[run].charged == done.total
    && end.runs[run].result == Some(done.steps)
    && end.usage == db.usage + (if done.k == Size(c, r) then [UsageEvent(run, done.tokensIn, done.tokensOut)] else [])
    && end.books.reservations[run].status == Settled && end.books.reservations[run].settled == done.total
    && DoneUpTo(c, end, run, r, done.k)
  }

  lemma LoopStops(c: Catalog, db: DB, run: nat, r: Run, at: Local, provider: nat -> Response)
    requires Undisturbed(c, db, run, r, at) && Answerable(c, r, provider)
    requires at.k < Size(c, r) ==> Needs(c, r)[at.k] > r.maxSpend - at.total
    ensures EndsWith(c, db, Solo(c, db, run, Looping(at), provider), run, r, at)
  {
    if at.k < Size(c, r) {
      SkillIsKnown(c, r, provider, at.k);
    }
    var verdict := if at.k == Size(c, r) then WorkflowDone else NoBudget;
    assert Stepped(c, db, run, Looping(at), provider) == (db, Settling(at, verdict));
    SettleCloses(db.books, run, at.total, db.now);
    Settles(c, db, run, at, verdict, provider);
  }

  lemma StaysUndisturbed(c: Catalog, db: DB, extended: DB, run: nat, r: Run, at: Local, next: Local,
                         provider: nat -> Response)
    requires Undisturbed(c, db, run, r, at) && Answerable(c, r, provider) && at.k < Size(c, r)
    requires SkillAt(c, r, at.k).Some? && extended == Extended(c, db, run, r, at.k, provider(at.k).answer)
    requires next.k == at.k + 1 && 0 <= next.total <= r.maxSpend
    ensures Undisturbed(c, extended, run, r, next) && extended.usage == db.usage
  {
    hide RowsOk;
  }

  lemma NeedsAndCharges(c: Catalog, r: Run, provider: nat -> Response, k: nat)
    requires Answerable(c, r, provider) && k <= Size(c, r)
    ensures |Needs(c, r)| == |Charges(c, r, provider)| == Size(c, r)
    ensures Tally(c, r, provider, k).total == Spent(Charges(c, r, provider), k)
  {
  }

  lemma SameStart(c: Catalog, db: DB, db': DB, end: DB, run: nat, r: Run, done: Local)
    requires EndsWith(c, db', end, run, r, done) && db'.usage == db.usage
    ensures EndsWith(c, db, end, run, r, done)
  {
  }

  lemma {:induction false} LoopEnds(c: Catalog, db: DB, run: nat, r: Run, at: Local, provider: nat -> Response,
                                    needs: seq<int>, charges: seq<int>)
    requires Undisturbed(c, db, run, r, at) && Answerable(c, r, provider)
    requires needs == Needs(c, r) && charges == Charges(c, r, provider)
    requires forall j :: 0 <= j < |charges| ==> 0 <= charges[j]
    requires at == Tally(c, r, provider, at.k)
    requires forall j :: at.k <= j < Stop(needs, charges, at.k, r.maxSpend - at.total) ==>
                           charges[j] <= r.maxSpend - Spent(charges, j)
    ensures var stop := Stop(needs, charges, at.k, r.maxSpend - at.total);
            EndsWith(c, db, Solo(c, db, run, Looping(at), provider), run, r, Tally(c, r, provider, stop))
    decreases |needs| - at.k
  {
    hide Solo, RowsOk, DoneUpTo, SkillAt, Extended, Tally, EndsWith, Charges, Needs, Answerable;
    NeedsAndCharges(c, r, provider, at.k);
    if at.k < |needs| && needs[at.k] <= r.maxSpend - at.total {
      var next := OneSkill(c, db, run, r, at, provider);
      AnswersAt(c, r, provider, at.k);
      var extended := Extended(c, db, run, r, at.k, provider(at.k).answer);
      StaysUndisturbed(c, db, extended, run, r, at, next, provider);
      LoopEnds(c, extended, run, r, next, provider, needs, charges);
      var stop := Stop(needs, charges, next.k, r.maxSpend - next.total);
      SameStart(c, db, extended, Solo(c, extended, run, Looping(next), provider), run, r, Tally(c, r, provider, stop));
    } else {
      LoopStops(c, db, run, r, at, provider);
    }
  }

  lemma ChargesAreNonNegative(c: Catalog, r: Run, provider: nat -> Response)
    requires ValidCatalog(c) && Answerable(c, r, provider)
    ensures forall j :: 0 <= j < |Charges(c, r, provider)| ==> 0 <= Charges(c, r, provider)[j]
  {
    forall j | 0 <= j < |Charges(c, r, provider)| ensures 0 <= Charges(c, r, provider)[j] {
      var answer := provider(j).answer;
      SkillIsKnown(c, r, provider, j);
      ChargeIsMonotone(c.skills[SkillAt(c, r, j).value], answer.tokensIn, answer.tokensOut, answer.tokensIn,
                      answer.tokensOut);
    }
  }

  lemma BeginsLooping(c: Catalog, db: DB, run: nat, provider: nat -> Response)
    requires run < |db.runs| && db.runs[run].status == Queued
    ensures Solo(c, db, run, Starting, provider)
         == Solo(c, Begin(db, run).value.0, run, Looping(NOTHING_DONE), provider)
  {
    assert Stepped(c, db, run, Starting, provider) == (Begin(db, run).value.0, Looping(NOTHING_DONE));
  }

  /** A fresh run executes exactly the first `stop` skills of its workflow, ends PASS if that is all
      of them and PARTIAL otherwise, and is charged their sum, provided no charge exceeds what is left. */
  lemma UndisturbedRun(c: Catalog, db: DB, run: nat, r: Run, provider: nat -> Response, charges: seq<int>, stop: nat)
    requires ValidCatalog(c) && Consistent(db) && run < |db.runs| && db.runs[run] == r
    requires r.status == Queued && !r.cancelRequested && db.books.reservations[run].status == Open
    requires Answerable(c, r, provider) && charges == Charges(c, r, provider)
    requires forall key :: key in db.executions ==> key.0 != run
    requires stop == Stop(Needs(c, r), charges, 0, r.maxSpend)
    requires forall j :: 0 <= j < stop ==> charges[j] <= r.maxSpend - Spent(charges, j)
    ensures EndsWith(c, db, Solo(c, db, run, Starting, provider), run, r, Tally(c, r, provider, stop))
  {
    hide Solo, Begin, Tally, EndsWith, Needs, Charges, Answerable, Consistent, Workflow;
    BeginKeepsTerms(db, run);
    BeginsLooping(c, db, run, provider);
    var begun := Begin(db, run).value.0;
    var r' := begun.runs[run];
    FreshRun(c, db, begun, run);
    SameCharges(c, r, r', provider);
    ChargesAreNonNegative(c, r', provider);
    NeedsAndCharges(c, r', provider, 0);
    NothingTallied(c, r', provider);
    LoopEnds(c, begun, run, r', NOTHING_DONE, provider, Needs(c, r'), charges);
    var end := Solo(c, db, run, Starting, provider);
    SameStart(c, db, begun, end, run, r', Tally(c, r', provider, stop));
    SameEnd(c, db, end, run, r, r', Tally(c, r, provider, stop));
  }

  lemma BeginKeepsTerms(db: DB, run: nat)
    requires run < |db.runs| && db.runs[run].status == Queued
    ensures Begin(db, run).Committed?
    ensures var (begun, r) := (Begin(db, run).value.0, db.runs[run]);
            && |begun.runs| == |db.runs| && begun.usage == db.usage
            && begun.runs[run].agent == r.agent && begun.runs[run].skill == r.skill
            && begun.runs[run].maxSpend == r.maxSpend
  {
  }

  lemma NothingTallied(c: Catalog, r: Run, provider: nat -> Response)
    requires Answerable(c, r, provider)
    ensures Tally(c, r, provider, 0) == NOTHING_DONE
  {
  }

  lemma FreshRun(c: Catalog, db: DB, begun: DB, run: nat)
    requires Consistent(db) && run < |db.runs| && db.runs[run].status == Queued && !db.runs[run].cancelRequested
    requires db.books.reservations[run].status == Open
    requires forall key :: key in db.executions ==> key.0 != run
    requires begun == Begin(db, run).value.0
    ensures Undisturbed(c, begun, run, begun.runs[run], NOTHING_DONE)
  {
    assert ReservationOk(db.books.reservations[run], run, |db.books.wallets|, db.now);
    assert forall j :: (run, j) in db.executions ==> (run, j).0 == run;
  }

  lemma SameCharges(c: Catalog, r: Run, r': Run, provider: nat -> Response)
    requires Answerable(c, r, provider) && r'.agent == r.agent && r'.skill == r.skill
    ensures Answerable(c, r', provider) && Needs(c, r') == Needs(c, r)
    ensures Charges(c, r', provider) == Charges(c, r, provider)
    ensures Size(c, r') == Size(c, r)
    ensures forall k: nat :: k <= Size(c, r) ==> Tally(c, r', provider, k) == Tally(c, r, provider, k)
  {
    assert Workflow(c, r') == Workflow(c, r);
    forall k ensures SkillAt(c, r', k) == SkillAt(c, r, k) {
    }
    forall k: nat, answer ensures ChargeFor(c, r', k, answer) == ChargeFor(c, r, k, answer) {
    }
  }

  lemma SameEnd(c: Catalog, db: DB, end: DB, run: nat, r: Run, r': Run, done: Local)
    requires EndsWith(c, db, end, run, r', done) && r'.agent == r.agent && r'.skill == r.skill
    ensures EndsWith(c, db, end, run, r, done)
  {
  }

  /** Of two fresh runs of the same workflow with the same answers, the one with the larger budget
      executes at least as long a prefix. */
  lemma LargerBudgetDoesMore(c: Catalog, db: DB, run: nat, r: Run, stop: nat, db': DB, run': nat, r': Run, stop': nat,
                             provider: nat -> Response, charges: seq<int>)
    requires ValidCatalog(c) && FreshStart(c, db, run, r, provider) && FreshStart(c, db', run', r', provider)
    requires r'.agent == r.agent && r'.skill == r.skill && r.maxSpend <= r'.maxSpend
    requires charges == Charges(c, r, provider)
    requires Within(c, r, provider, stop) && Within(c, r', provider, stop')
    ensures stop <= stop'
    ensures EndsWith(c, db, Solo(c, db, run, Starting, provider), run, r, Tally(c, r, provider, stop))
    ensures EndsWith(c, db', Solo(c, db', run', Starting, provider), run', r', Tally(c, r', provider, stop'))
  {
    SameCharges(c, r, r', provider);
    NeedsAndCharges(c, r, provider, 0);
    MoreBudgetRunsMore(Needs(c, r), charges, 0, r.maxSpend, r'.maxSpend);
    hide EndsWith, Solo, Tally;
    UndisturbedRun(c, db, run, r, provider, charges, stop);
    UndisturbedRun(c, db', run', r', provider, charges, stop');
  }

  /** A queued run with its hold open, whose provider answers for each skill. */
  ghost predicate FreshStart(c: Catalog, db: DB, run: nat, r: Run, provider: nat -> Response) {
    && Consistent(db) && run < |db.runs| && db.runs[run] == r
    && r.status == Queued && !r.cancelRequested && db.books.reservations[run].status == Open
    && Answerable(c, r, provider)
    && forall key :: key in db.executions ==> key.0 != run
  }

  /** `stop` skills fit in the run's budget, each charge within what is left. */
  ghost predicate Within(c: Catalog, r: Run, provider: nat -> Response, stop: nat)
    requires Answerable(c, r, provider)
  {
    var charges := Charges(c, r, provider);
    && stop == Stop(Needs(c, r), charges, 0, r.maxSpend)
    && forall j :: 0 <= j < stop ==> charges[j] <= r.maxSpend - Spent(charges, j)
  }

  // ----- a charge beyond the budget -----

  /** The run did k skills, the last one for more than was left: it fails, charged nothing and refunded. */
  ghost predicate EndsOvercharged(c: Catalog, db: DB, end: DB, run: nat, r: Run, k: nat) {
    && run < |end.runs| && run < |end.books.reservations|
    && end.runs[run] == r.(status := Fail, error := Some(OVERCHARGED))
    && end.usage == db.usage
    && end.books.reservations[run].status == Refunded && end.books.reservations[run].settled == 0
    && DoneUpTo(c, end, run, r, k)
  }

  lemma RefundsAll(c: Catalog, db: DB, run: nat, r: Run, k: nat, provider: nat -> Response)
    requires RowsOk(db.books, db.now) && run < |db.runs| && run < |db.books.reservations| && db.runs[run] == r
    requires db.books.reservations[run].status == Open && DoneUpTo(c, db, run, r, k)
    ensures EndsOvercharged(c, db, Solo(c, db, run, Failing(OVERCHARGED), provider), run, r, k)
  {
    hide Solo, SkillAt;
    RefundCloses(db.books, run, db.now);
    hide RefundRun, RowsOk;
    AbortIsSolo(c, db, WithBooks(db, RefundRun(db.books, run, db.now)), run, OVERCHARGED, provider);
  }

  lemma Overcharges(c: Catalog, db: DB, run: nat, r: Run, at: Local, provider: nat -> Response)
    requires Undisturbed(c, db, run, r, at) && Answerable(c, r, provider) && at.k < Size(c, r)
    requires Needs(c, r)[at.k] <= r.maxSpend - at.total < Charges(c, r, provider)[at.k]
    ensures EndsOvercharged(c, db, Solo(c, db, run, Looping(at), provider), run, r, at.k + 1)
  {
    hide DoneUpTo, Answerable, Charges, Needs, Stepped, Solo, SkillAt, ChargeFor, Prepare, Size, Workflow;
    hide Tally, RowsOk;
    InsertsFresh(c, db, run, r, at.k, provider);
    AnswersAt(c, r, provider, at.k);
    ExtendsPrefix(c, db, run, r, at.k, provider);
    var skill := SkillAt(c, r, at.k).value;
    var answer := provider(at.k).answer;
    var charge := ChargeFor(c, r, at.k, answer);
    var inserted := db.(executions := db.executions[(run, at.k + 1) := InFlight(skill)]);
    var extended := Extended(c, db, run, r, at.k, answer);
    LoopsToPreparing(c, db, run, r, at, provider);
    PreparesFresh(c, db, run, r, at, skill, provider);
    Calls(c, inserted, run, at, answer, provider);
    Records(c, inserted, run, r, at, skill, answer, provider);
    assert extended.executions == inserted.executions[(run, at.k + 1) := extended.executions[(run, at.k + 1)]];
    assert extended == Checkpoint(inserted, run, at.k + 1, answer, charge);
    SoloChain(c, db, inserted, extended, run, at, answer, Failing(OVERCHARGED), provider);
    RefundsAll(c, extended, run, r, at.k + 1, provider);
  }

  lemma ExtendsPrefix(c: Catalog, db: DB, run: nat, r: Run, k: nat, provider: nat -> Response)
    requires DoneUpTo(c, db, run, r, k) && Answerable(c, r, provider) && k < Size(c, r) && SkillAt(c, r, k).Some?
    ensures DoneUpTo(c, Extended(c, db, run, r, k, provider(k).answer), run, r, k + 1)
  {
  }

  lemma {:induction false} LoopOvercharges(c: Catalog, db: DB, run: nat, r: Run, at: Local, provider: nat -> Response,
                                           needs: seq<int>, charges: seq<int>, j: nat)
    requires Undisturbed(c, db, run, r, at) && Answerable(c, r, provider)
    requires needs == Needs(c, r) && charges == Charges(c, r, provider) && at.k <= j < |needs|
    requires forall i :: 0 <= i < |charges| ==> 0 <= charges[i]
    requires at.total == Spent(charges, at.k)
    requires forall i :: at.k <= i <= j ==> needs[i] <= r.maxSpend - Spent(charges, i)
    requires forall i :: at.k <= i < j ==> charges[i] <= r.maxSpend - Spent(charges, i)
    requires charges[j] > r.maxSpend - Spent(charges, j)
    ensures EndsOvercharged(c, db, Solo(c, db, run, Looping(at), provider), run, r, j + 1)
    decreases j - at.k
  {
    hide Solo, RowsOk, DoneUpTo, SkillAt, Extended, Tally, Charges, Needs, Answerable;
    NeedsAndCharges(c, r, provider, at.k);
    if at.k == j {
      Overcharges(c, db, run, r, at, provider);
    } else {
      var next := OneSkill(c, db, run, r, at, provider);
      AnswersAt(c, r, provider, at.k);
      var extended := Extended(c, db, run, r, at.k, provider(at.k).answer);
      StaysUndisturbed(c, db, extended, run, r, at, next, provider);
      LoopOvercharges(c, extended, run, r, next, provider, needs, charges, j);
    }
  }

  /** The first skill whose charge exceeds what is left, of those the loop reaches. */
  predicate OverchargedAt(c: Catalog, r: Run, provider: nat -> Response, j: nat)
    requires Answerable(c, r, provider)
  {
    OverspendsAt(Needs(c, r), Charges(c, r, provider), r.maxSpend, j)
  }

  /** A fresh run whose skill j charges more than is left fails there: its j + 1 checkpoints stay,
      it is charged nothing, and the whole hold goes back. */
  lemma OverchargedRun(c: Catalog, db: DB, run: nat, r: Run, provider: nat -> Response, j: nat, begun: Run)
    requires ValidCatalog(c) && FreshStart(c, db, run, r, provider) && OverchargedAt(c, r, provider, j)
    requires begun == r.(status := Running, startedAt := if r.startedAt.None? then Some(db.now) else r.startedAt)
    ensures EndsOvercharged(c, db, Solo(c, db, run, Starting, provider), run, begun, j + 1)
  {
    BeginsLooping(c, db, run, provider);
    var started := Begin(db, run).value.0;
    FreshRun(c, db, started, run);
    SameCharges(c, r, begun, provider);
    ChargesAreNonNegative(c, begun, provider);
    assert started.runs[run] == begun && started.usage == db.usage;
    hide Solo, Begin, Tally, Needs, Charges, Answerable, Consistent, Workflow, Undisturbed, FreshStart;
    LoopOvercharges(c, started, run, begun, NOTHING_DONE, provider, Needs(c, begun), Charges(c, begun, provider), j);
  }

  lemma OverchargedOrWithin(c: Catalog, r: Run, provider: nat -> Response, stop: nat)
    requires Answerable(c, r, provider) && |Needs(c, r)| == |Charges(c, r, provider)|
    requires stop == Stop(Needs(c, r), Charges(c, r, provider), 0, r.maxSpend)
    ensures (exists j: nat :: OverchargedAt(c, r, provider, j)) || Within(c, r, provider, stop)
  {
    var charges := Charges(c, r, provider);
    hide Answerable, Needs, Charges;
    if k :| 0 <= k < stop && charges[k] > r.maxSpend - Spent(charges, k) {
      var j := FirstOverspend(Needs(c, r), charges, r.maxSpend, stop, k);
      assert OverchargedAt(c, r, provider, j);
    }
  }

  /** A fresh run whose provider answers ends FAIL exactly when some skill the loop reaches charges
      more than is left of the budget. */
  lemma FailsExactlyWhenOvercharged(c: Catalog, db: DB, run: nat, r: Run, provider: nat -> Response, end: DB)
    requires ValidCatalog(c) && FreshStart(c, db, run, r, provider)
    requires end == Solo(c, db, run, Starting, provider)
    ensures run < |end.runs|
    ensures end.runs[run].status == Fail <==> exists j: nat :: OverchargedAt(c, r, provider, j)
  {
    if j: nat :| OverchargedAt(c, r, provider, j) {
      OverchargedRun(c, db, run, r, provider, j,
                     r.(status := Running, startedAt := if r.startedAt.None? then Some(db.now) else r.startedAt));
    } else {
      hide Solo, Consistent;
      NeedsAndCharges(c, r, provider, 0);
      var charges := Charges(c, r, provider);
      var stop := Stop(Needs(c, r), charges, 0, r.maxSpend);
      OverchargedOrWithin(c, r, provider, stop);
      UndisturbedRun(c, db, run, r, provider, charges, stop);
    }
  }

  lemma {:induction false} ChargesWithinNeeds(needs: seq<int>, charges: seq<int>, k: nat)
    requires k <= |needs| == |charges| && forall j :: 0 <= j < |needs| ==> charges[j] <= needs[j]
    ensures Spent(charges, k) <= Spent(needs, k)
  {
    if k > 0 {
      ChargesWithinNeeds(needs, charges, k - 1);
    }
  }

  /** A run whose budget covers its workflow's reservations, and whose charges stay within them,
      never ends PARTIAL for its budget: it does the whole workflow and passes. */
  lemma CoveredRunPasses(c: Catalog, db: DB, run: nat, r: Run, provider: nat -> Response, needs: seq<int>,
                         charges: seq<int>)
    requires ValidCatalog(c) && Consistent(db) && run < |db.runs| && db.runs[run] == r
    requires r.status == Queued && !r.cancelRequested && db.books.reservations[run].status == Open
    requires Answerable(c, r, provider) && needs == Needs(c, r) && charges == Charges(c, r, provider)
    requires forall key :: key in db.executions ==> key.0 != run
    requires Spent(needs, |needs|) <= r.maxSpend
    requires forall j :: 0 <= j < |needs| ==> charges[j] <= needs[j]
    ensures EndsWith(c, db, Solo(c, db, run, Starting, provider), run, r, Tally(c, r, provider, |needs|))
  {
    ChargesAreNonNegative(c, r, provider);
    forall j | 0 <= j < |needs| ensures 0 <= needs[j] && charges[j] <= r.maxSpend - Spent(charges, j) {
      ChargesWithinNeeds(needs, charges, j + 1);
      NeedsArePositive(c, r, provider);
      SpentGrows(needs, j + 1, |needs|);
    }
    CoveredBudgetSuffices(needs, charges, 0, r.maxSpend);
    UndisturbedRun(c, db, run, r, provider, charges, |needs|);
  }

  lemma NeedsArePositive(c: Catalog, r: Run, provider: nat -> Response)
    requires ValidCatalog(c) && Answerable(c, r, provider)
    ensures forall j :: 0 <= j < |Needs(c, r)| ==> 0 < Needs(c, r)[j]
  {
    forall j | 0 <= j < |Needs(c, r)| ensures 0 < Needs(c, r)[j] {
      SkillIsKnown(c, r, provider, j);
    }
  }

  // ----- the budget an admission grants -----

  lemma {:induction false} SumIsSpent(c: Catalog, workflow: seq<string>, needs: seq<int>, k: nat)
    requires k <= |workflow| == |needs|
    requires forall j :: 0 <= j < |workflow| ==>
                         workflow[j] in c.skills && needs[j] == SkillReservation(c.skills[workflow[j]])
    ensures Sum(workflow[..k], (s: string) => if s in c.skills then SkillReservation(c.skills[s]) else 0)
         == Spent(needs, k)
  {
    if k > 0 {
      SumIsSpent(c, workflow, needs, k - 1);
      assert workflow[..k][..k - 1] == workflow[..k - 1];
    }
  }

  /** An agent run's budget is the least of its workflow's reservations, the platform's cap and the
      caller's max_spend, so it covers the workflow exactly when neither of the others is smaller. */
  lemma AgentBudget(c: Catalog, t: nat, agent: string, payload: string, maxSpend: Option<int>, key: Option<string>,
                    q: Request, r: Run, now: nat)
    requires AgentRequest(c, t, agent, payload, maxSpend, key) == Committed(q) && r == NewRun(q, now)
    ensures Workflow(c, r).Some? && forall s :: s in Workflow(c, r).value ==> s in c.skills
    ensures var total := Spent(Needs(c, r), |Needs(c, r)|);
            && 0 < r.maxSpend <= total && r.maxSpend <= c.maxRunCredits
            && (maxSpend.Some? ==> r.maxSpend <= maxSpend.value)
            && (r.maxSpend == total || r.maxSpend == c.maxRunCredits || maxSpend == Some(r.maxSpend))
            && (r.maxSpend == total <==> total <= c.maxRunCredits && (maxSpend.Some? ==> total <= maxSpend.value))
  {
    var workflow := c.agents[agent];
    SumIsSpent(c, workflow, Needs(c, r), |workflow|);
    assert workflow[..|workflow|] == workflow;
  }

  /** A skill run's budget always covers its one skill. */
  lemma SkillBudget(c: Catalog, t: nat, plan: string, skill: string, payload: string, key: Option<string>,
                    q: Request, r: Run, now: nat)
    requires SkillRequest(c, t, plan, skill, payload, key) == Committed(q) && r == NewRun(q, now)
    ensures Workflow(c, r) == Some([skill]) && skill in c.skills
    ensures r.agent == c.skills[skill].agent && plan in c.skills[skill].plans
    ensures r.maxSpend == Spent(Needs(c, r), |Needs(c, r)|)
  {
    assert Needs(c, r) == [SkillReservation(c.skills[skill])];
    assert Spent(Needs(c, r), 1) == Spent(Needs(c, r), 0) + Needs(c, r)[0];
  }
}
