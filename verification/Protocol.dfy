/** The inductive invariant of the concurrent system. It is kept in rely-guarantee style: every
    transaction only lets a run evolve, and each actor's knowledge survives the others' steps. */
module Protocol {
  import opened Rows
  import opened Tables
  import opened Pricing
  import opened Billing
  import opened Marketplace
  import opened Admission
  import opened RunBlocks
  import opened BooksInvariant
  import opened Transactions
  import opened Consistency
  import opened Machine

  // ----- what holds of each run -----

  /** Status, start, reservation and event of a run agree. */
  ghost predicate Lifecycle(r: Run, res: Reservation, event: OutboxEvent) {
    && (r.status == PendingDispatch ==> !event.dispatched)
    && (!event.dispatched ==> r.status in {PendingDispatch, Cancelled, Fail})
    && (r.startedAt.None? ==>
          r.status in {PendingDispatch, Queued, Cancelled, Fail} && r.charged == 0 && res.status != Settled)
    && (r.startedAt.Some? ==> event.dispatched && r.status !in {PendingDispatch, Queued})
    && (r.status in {Pass, Partial} ==> res.status == Settled && res.settled == r.charged)
    && (r.status == Fail ==> res.status != Open)
    && (r.status == Blocked ==> r.error == Some(AMBIGUOUS))
    && (r.cancelRequested ==> r.status == CancelRequested || Ended(r.status))
    && (r.status == Cancelled ==> r.charged == res.settled && (r.startedAt.Some? ==> res.status == Settled))
  }

  predicate StepDone(db: DB, run: nat, k: nat) {
    (run, k) in db.executions && db.executions[(run, k)].Completed?
  }

  predicate StepsDone(db: DB, run: nat, k: nat) {
    forall j :: 1 <= j <= k ==> StepDone(db, run, j)
  }

  /** The charges of checkpoints 1..k. */
  function ChargeSum(db: DB, run: nat, k: nat): int {
    if k == 0 then 0
    else ChargeSum(db, run, k - 1) + if StepDone(db, run, k) then db.executions[(run, k)].charged else 0
  }

  /** A PASS checkpoint is charged what its skill costs for the tokens it records. */
  predicate Metered(c: Catalog, e: Execution) {
    e.Completed? ==>
      && e.skill in c.skills
      && e.charged == SkillCharge(c.skills[e.skill], e.answer.tokensIn, e.answer.tokensOut)
  }

  /** A checkpoint belongs to a started run, follows a PASS checkpoint, and is for the skill of its place. */
  ghost predicate CheckpointOk(c: Catalog, db: DB, key: (nat, nat)) {
    && key in db.executions
    && key.0 < |db.runs|
    && db.runs[key.0].startedAt.Some?
    && key.1 >= 1
    && SkillAt(c, db.runs[key.0], key.1 - 1) == Some(db.executions[key].skill)
    && (key.1 > 1 ==> StepDone(db, key.0, key.1 - 1))
    && (db.executions[key].Completed? ==> db.executions[key].charged >= 0)
    && Metered(c, db.executions[key])
  }

  ghost predicate Listed(c: Catalog, r: Run) {
    var workflow := Workflow(c, r);
    && workflow.Some? && workflow.value != [] && Distinct(workflow.value)
    && forall s :: s in workflow.value ==> s in c.skills
  }

  /** A PASS run has done its whole workflow and is charged the sum of its checkpoints. */
  ghost predicate PassedInFull(c: Catalog, db: DB, run: nat)
    requires run < |db.runs|
  {
    var workflow := Workflow(c, db.runs[run]);
    && workflow.Some?
    && StepsDone(db, run, |workflow.value|)
    && db.runs[run].charged == ChargeSum(db, run, |workflow.value|)
  }

  /** The run's charge is the sum of its first k checkpoints, all PASS. */
  ghost predicate PaidFor(db: DB, run: nat, k: nat)
    requires run < |db.runs|
  {
    StepsDone(db, run, k) && db.runs[run].charged == ChargeSum(db, run, k)
  }

  /** A run its worker stopped for its budget or on a cancellation. */
  predicate Stopped(r: Run) {
    (r.status == Partial && r.error == Some(BUDGET_EXHAUSTED)) || (r.status == Cancelled && r.startedAt.Some?)
  }

  /** What a worker charged a run is the sum of checkpoints. */
  ghost predicate SummedUp(c: Catalog, db: DB, run: nat)
    requires run < |db.runs|
  {
    && (db.runs[run].status == Pass ==> PassedInFull(c, db, run))
    && (Stopped(db.runs[run]) ==> exists k: nat :: PaidFor(db, run, k))
  }

  ghost predicate RunOk(c: Catalog, db: DB, run: nat)
    requires run < |db.runs| && Aligned(db)
  {
    && Listed(c, db.runs[run])
    && Lifecycle(db.runs[run], db.books.reservations[run], db.outbox[run])
    && SummedUp(c, db, run)
  }

  ghost predicate RunsOk(c: Catalog, db: DB) {
    && Aligned(db)
    && (forall run :: 0 <= run < |db.runs| ==> RunOk(c, db, run))
    && (forall key :: key in db.executions ==> CheckpointOk(c, db, key))
  }

  // ----- what an actor knows -----

  /** A run in one of these statuses is never executed or cancelled again. */
  predicate Ended(status: RunStatus) {
    status in {Pass, Partial, Fail, Blocked, Cancelled}
  }

  ghost predicate Started(db: DB, run: nat) {
    run < |db.runs| && db.runs[run].startedAt.Some?
  }

  /** A worker's total is the sum of the checkpoints behind it and within the reservation. */
  ghost predicate LocalOk(c: Catalog, db: DB, run: nat, at: Local) {
    && Started(db, run)
    && Workflow(c, db.runs[run]).Some?
    && at.k <= |Workflow(c, db.runs[run]).value|
    && StepsDone(db, run, at.k)
    && at.total == ChargeSum(db, run, at.k)
    && 0 <= at.total <= db.runs[run].maxSpend
  }

  ghost predicate Owns(c: Catalog, db: DB, run: nat, at: Local) {
    && LocalOk(c, db, run, at)
    && SkillAt(c, db.runs[run], at.k).Some?
    && (run, at.k + 1) in db.executions
    && db.executions[(run, at.k + 1)].InFlight?
  }

  ghost predicate ReservationClosed(db: DB, run: nat) {
    run < |db.books.reservations| ==> db.books.reservations[run].status != Open
  }

  ghost predicate SettledFor(db: DB, run: nat, charge: int) {
    && run < |db.books.reservations|
    && db.books.reservations[run].status == Settled && db.books.reservations[run].settled == charge
  }

  ghost predicate WorkerOk(c: Catalog, db: DB, run: nat, pc: Pc) {
    match pc
    case Starting => true
    case Looping(at) => LocalOk(c, db, run, at)
    case Preparing(at) => LocalOk(c, db, run, at) && SkillAt(c, db.runs[run], at.k).Some?
    case Calling(at) => Owns(c, db, run, at)
    case Recording(at, _) => Owns(c, db, run, at)
    case Settling(at, verdict) =>
      && LocalOk(c, db, run, at) && (verdict.WorkflowDone? ==> at.k == |Workflow(c, db.runs[run]).value|)
      && (verdict.CancelSeen? ==> db.runs[run].cancelRequested)
    case Concluding(at, verdict) =>
      && LocalOk(c, db, run, at) && (verdict.WorkflowDone? ==> at.k == |Workflow(c, db.runs[run]).value|)
      && (verdict.CancelSeen? ==> db.runs[run].cancelRequested)
      && SettledFor(db, run, at.total)
    case Logging => Started(db, run)
    case Failing(_) => Started(db, run)
    case MarkingFailed(_) => Started(db, run) && ReservationClosed(db, run)
    case MarkingBlocked => Started(db, run)
    case Hanging => Started(db, run)
    case Finished => true
  }

  ghost predicate OperatorOk(db: DB, run: nat, action: Action, pc: OperatorPc) {
    match pc
    case CheckingAmount => Started(db, run) && Ended(db.runs[run].status)
    case ClosingReservation => Started(db, run) && Ended(db.runs[run].status)
    case Writing =>
      && Started(db, run) && Ended(db.runs[run].status)
      && if action.SettleIt? && action.charge.Some? then SettledFor(db, run, action.charge.value)
         else ReservationClosed(db, run)
    case _ => true
  }

  ghost predicate ActorOk(c: Catalog, db: DB, a: Actor) {
    match a
    case Worker(run, pc) => WorkerOk(c, db, run, pc)
    case Reaper(queue, pc) =>
      && (forall run :: run in queue ==> run < |db.runs|)
      && (queue != [] ==> pc.RefundingHead? || pc.ExpiringHead?)
      && (pc.ExpiringHead? ==> queue != [] && ReservationClosed(db, queue[0]))
    case Operator(run, action, pc) => OperatorOk(db, run, action, pc)
    case _ => true
  }

  /** The RUNNING checkpoint a worker has inserted and not yet completed. */
  function Claim(a: Actor): Option<(nat, nat)> {
    if a.Worker? && (a.pc.Calling? || a.pc.Recording?) then Some((a.run, a.pc.at.k + 1)) else None
  }

  ghost predicate ActorsOk(c: Catalog, s: Sys) {
    forall i :: 0 <= i < |s.actors| ==> ActorOk(c, s.db, s.actors[i])
  }

  /** No two workers hold the same checkpoint. */
  ghost predicate ClaimsDiffer(s: Sys) {
    forall i, j :: 0 <= i < |s.actors| && 0 <= j < |s.actors| && i != j && Claim(s.actors[i]).Some? ==>
                     Claim(s.actors[i]) != Claim(s.actors[j])
  }

  /** A checkpoint is inserted before its provider call, and each call is made once. */
  ghost predicate CallsOk(s: Sys) {
    && (forall key :: s.calls[key] <= 1)
    && (forall key :: key in s.calls ==> key in s.db.executions)
    && (forall i :: 0 <= i < |s.actors| && s.actors[i].Worker? && s.actors[i].pc.Calling? ==>
                      (s.actors[i].run, s.actors[i].pc.at.k + 1) !in s.calls)
  }

  ghost predicate SysOk(c: Catalog, s: Sys) {
    && Consistent(s.db)
    && RunsOk(c, s.db)
    && ActorsOk(c, s)
    && ClaimsDiffer(s)
    && CallsOk(s)
  }

  // ----- how a database may evolve under someone else's step -----

  ghost predicate Evolves(db: DB, db': DB, claim: Option<(nat, nat)>) {
    && |db.runs| <= |db'.runs|
    && |db.books.reservations| <= |db'.books.reservations|
    && (forall r :: 0 <= r < |db.runs| ==>
                      && Identity(db'.runs[r]) == Identity(db.runs[r])
                      && (db.runs[r].startedAt.Some? ==> db'.runs[r].startedAt.Some?)
                      && (db.runs[r].cancelRequested ==> db'.runs[r].cancelRequested)
                      && (Ended(db.runs[r].status) ==> Ended(db'.runs[r].status)))
    && (forall r :: 0 <= r < |db.books.reservations| && db.books.reservations[r].status != Open ==>
                      db'.books.reservations[r] == db.books.reservations[r])
    && (forall key :: key in db.executions ==>
                        && key in db'.executions
                        && (db.executions[key].Completed? || claim != Some(key) ==>
                              db'.executions[key] == db.executions[key]))
  }

  // A closed reservation and a PASS checkpoint are final, and a started run stays started.

  lemma SettleEvolves(db: DB, run: nat, charge: int)
    requires RowsOk(db.books, db.now)
    ensures Evolves(db, WithBooks(db, SettleRun(db.books, run, charge, db.now)), None)
  {
    SettleCloses(db.books, run, charge, db.now);
  }

  lemma RefundEvolves(db: DB, run: nat)
    requires RowsOk(db.books, db.now)
    ensures Evolves(db, WithBooks(db, RefundRun(db.books, run, db.now)), None)
  {
    RefundCloses(db.books, run, db.now);
  }

  lemma RecordEvolves(db: DB, run: nat, k: nat, answer: Answer, charge: int)
    requires (run, k) in db.executions ==> db.executions[(run, k)].InFlight?
    ensures Evolves(db, Checkpoint(db, run, k, answer, charge), Some((run, k)))
  {
  }

  lemma BeginEvolves(db: DB, run: nat)
    ensures Begin(db, run).Committed? ==> Evolves(db, Begin(db, run).value.0, None)
  {
  }

  lemma PrepareEvolves(db: DB, run: nat, k: nat, skill: string)
    ensures Evolves(db, Prepare(db, run, k, skill, false).0, None)
  {
  }

  lemma CloseEvolves(db: DB, run: nat, w: Closing)
    ensures Evolves(db, Close(db, run, w), None)
  {
  }

  lemma CancelEvolves(db: DB, run: nat, tenant: nat)
    ensures RequestCancel(db, run, tenant).Committed? ==> Evolves(db, RequestCancel(db, run, tenant).value.0, None)
  {
  }

  lemma ExpireEvolves(db: DB, run: nat)
    ensures Evolves(db, Expire(db, run), None)
  {
  }

  lemma DispatchEvolves(db: DB, run: nat)
    ensures Evolves(db, Dispatched(db, run), None) && Evolves(db, DispatchFailed(db, run), None)
  {
  }

  lemma IdleEvolves(db: DB)
    ensures Evolves(db, db, None)
  {
  }

  lemma ClientsEvolve(c: Catalog, db: DB, txn: Txn)
    requires IsClient(txn)
    ensures Evolves(db, Apply(c, db, txn), None)
  {
    if txn.AdmitAgent? || txn.AdmitSkill? {
      if RequestOf(c, txn).Committed? {
        AdmissionEvolves(db, RequestOf(c, txn).value);
      }
    } else {
      OtherClientsLeaveRuns(c, db, txn);
    }
  }

  lemma AdmissionEvolves(db: DB, q: Request)
    ensures CreateRun(db, q).Committed? ==> Evolves(db, CreateRun(db, q).value.0, None)
  {
  }

  lemma OtherClientsLeaveRuns(c: Catalog, db: DB, txn: Txn)
    requires IsClient(txn) && !txn.AdmitAgent? && !txn.AdmitSkill?
    ensures var db' := Apply(c, db, txn);
            && db'.runs == db.runs && db'.outbox == db.outbox && db'.executions == db.executions
            && db'.books.reservations == db.books.reservations
  {
    hide Post, FindSale, FindPayment, FindPublisher, PublisherShare, ValidControl;
  }

  lemma {:induction false} ChargeSumSame(db: DB, db': DB, run: nat, k: nat)
    requires StepsDone(db, run, k)
    requires forall j :: 1 <= j <= k ==>
                 StepDone(db, run, j) && StepDone(db', run, j) && db'.executions[(run, j)] == db.executions[(run, j)]
    ensures ChargeSum(db', run, k) == ChargeSum(db, run, k)
  {
    if k > 0 {
      ChargeSumSame(db, db', run, k - 1);
      assert StepDone(db, run, k);
    }
  }

  lemma LocalSurvives(c: Catalog, db: DB, db': DB, claim: Option<(nat, nat)>, run: nat, at: Local)
    requires LocalOk(c, db, run, at) && Evolves(db, db', claim)
    ensures LocalOk(c, db', run, at)
    ensures Identity(db'.runs[run]) == Identity(db.runs[run])
  {
    forall j | 1 <= j <= at.k
      ensures StepDone(db, run, j) && StepDone(db', run, j) && db'.executions[(run, j)] == db.executions[(run, j)]
    {
      assert StepDone(db, run, j);
    }
    ChargeSumSame(db, db', run, at.k);
  }

  /** What an actor knows survives any step that does not complete its own checkpoint. */
  lemma KnowledgeSurvives(c: Catalog, db: DB, db': DB, claim: Option<(nat, nat)>, a: Actor)
    requires ActorOk(c, db, a) && Evolves(db, db', claim)
    requires Claim(a).Some? ==> Claim(a) != claim
    requires Aligned(db) && Aligned(db')
    ensures ActorOk(c, db', a)
  {
    if a.Worker? {
      if a.pc.Looping? || a.pc.Preparing? || a.pc.Calling? || a.pc.Recording? || a.pc.Settling? || a.pc.Concluding? {
        LocalSurvives(c, db, db', claim, a.run, a.pc.at);
      }
    } else if a.Reaper? && a.reap.ExpiringHead? {
      assert a.queue[0] in a.queue;
    }
  }
}
