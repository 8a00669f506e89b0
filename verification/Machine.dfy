/** The concurrent system: any number of workers, dispatchers, cancelling clients, reapers and
    operators, each a program counter over the transactions it commits, interleaved with client
    transactions and crashes. */
module Machine {
  import opened Rows
  import opened Tables
  import opened Pricing
  import opened Billing
  import opened RunBlocks
  import opened Transactions

  const OVERCHARGED: string := "SKILL_CHARGE_EXCEEDED_RESERVED_BUDGET"
  const NOT_OPEN: string := "Reservation is not open"
  const OVER_RESERVED: string := "Charge exceeds reserved amount"
  const UNKNOWN_KEY: string := "KeyError"
  const DUPLICATE_ROW: string := "IntegrityError"

  /** execute_run's loop variables: `k` skills are done. */
  datatype Local = Local(k: nat, total: int, tokensIn: int, tokensOut: int, steps: seq<Step>)

  datatype Verdict = WorkflowDone | NoBudget | CancelSeen

  /** Where a worker is between two blocks. */
  datatype Pc =
    | Starting
    | Looping(at: Local)                       // about to read cancel_requested
    | Preparing(at: Local)
    | Calling(at: Local)                       // checkpoint inserted, provider not yet answered
    | Recording(at: Local, answer: Answer)
    | Settling(at: Local, verdict: Verdict)
    | Concluding(at: Local, verdict: Verdict)  // settled, status not yet written
    | Logging                                  // status written, still inside the try
    | Failing(code: string)                    // about to refund
    | MarkingFailed(code: string)
    | MarkingBlocked
    | Hanging                                  // in an opening block that waits for itself
    | Finished

  datatype DispatchPc = Looking | Enqueuing | MarkingDispatched | NotingFailure | DispatchOver
  datatype CancelPc = Requesting | RefundingCancelled | CancelOver
  datatype ReapPc = Selecting | RefundingHead | ExpiringHead | ReapOver
  datatype OperatorPc = Checking | CheckingAmount | ClosingReservation | Writing | OperatorOver
  datatype Action = RefundIt | SettleIt(charge: Option<int>)

  datatype Actor =
    | Worker(run: nat, pc: Pc)
    | Dispatcher(run: nat, dispatch: DispatchPc)
    | Canceller(run: nat, tenant: nat, cancel: CancelPc)
    | Reaper(queue: seq<nat>, reap: ReapPc)
    | Operator(run: nat, action: Action, operate: OperatorPc)

  /** What the code does not decide: an exception, the provider's answer, a lost insert race,
      and which expired rows an unordered LIMIT returns. */
  datatype Choice = Proceed | Raise(code: string) | Reply(answer: Answer) | Race | Pick(queue: seq<nat>)

  const NOTHING_DONE: Local := Local(0, 0, 0, 0, [])

  function SkillAt(c: Catalog, r: Run, k: nat): Option<string> {
    var workflow := Workflow(c, r);
    if workflow.Some? && k < |workflow.value| && workflow.value[k] in c.skills then Some(workflow.value[k]) else None
  }

  function ChargeFor(c: Catalog, r: Run, k: nat, answer: Answer): int {
    var skill := SkillAt(c, r, k);
    if skill.None? then 0 else SkillCharge(c.skills[skill.value], answer.tokensIn, answer.tokensOut)
  }

  function ClosingOf(at: Local, verdict: Verdict): Closing {
    match verdict
    case WorkflowDone => Passed(at.total, at.steps, at.tokensIn, at.tokensOut)
    case NoBudget => OutOfBudget(at.total, at.steps)
    case CancelSeen => CancelHonoured(at.total, at.steps)
  }

  /** The budget check after a step, and the loop variables it leaves. */
  function Account(r: Run, at: Local, skill: string, answer: Answer, charge: int): Pc {
    if charge > r.maxSpend - at.total then Failing(OVERCHARGED)
    else
      Looping(Local(at.k + 1, at.total + charge, at.tokensIn + answer.tokensIn, at.tokensOut + answer.tokensOut,
                    at.steps + [Step(skill, answer.output, answer.responseId, charge)]))
  }

  function WorkerTxn(c: Catalog, db: DB, run: nat, pc: Pc): Txn {
    if run >= |db.runs| then ReadOnly
    else
      match pc
      case Starting => BeginRun(run)
      case Preparing(at) =>
        var skill := SkillAt(c, db.runs[run], at.k);
        if skill.None? then ReadOnly else PrepareStep(run, at.k + 1, skill.value)
      case Recording(at, answer) => RecordStep(run, at.k + 1, answer, ChargeFor(c, db.runs[run], at.k, answer))
      case Settling(at, _) => SettleTxn(run, at.total)
      case Concluding(at, verdict) => CloseTxn(run, ClosingOf(at, verdict))
      case Failing(_) => RefundTxn(run)
      case MarkingFailed(code) => CloseTxn(run, Failed(code))
      case MarkingBlocked => CloseTxn(run, BlockedAmbiguous)
      case _ => ReadOnly
  }

  /** The top of execute_run's loop, and its check after the last skill. */
  function AtLoopHead(c: Catalog, r: Run, at: Local): Pc {
    if Workflow(c, r).None? then Failing(UNKNOWN_KEY)
    else if r.cancelRequested then Settling(at, CancelSeen)
    else if at.k >= |Workflow(c, r).value| then Settling(at, WorkflowDone)
    else if SkillAt(c, r, at.k).None? then Failing(UNKNOWN_KEY)
    else if SkillReservation(c.skills[SkillAt(c, r, at.k).value]) > r.maxSpend - at.total then Settling(at, NoBudget)
    else Preparing(at)
  }

  function NextPc(c: Catalog, db: DB, run: nat, pc: Pc, choice: Choice): Pc {
    if run >= |db.runs| then Finished
    else
      var r := db.runs[run];
      match pc
      case Starting =>
        (match Begin(db, run)
         case Committed((_, go)) => if go then Looping(NOTHING_DONE) else Finished
         case RolledBack(e) => if e == WaitsForItself then Hanging else Finished)
      case Looping(at) => AtLoopHead(c, r, at)
      case Preparing(at) =>
        var skill := SkillAt(c, r, at.k);
        if skill.None? then Failing(UNKNOWN_KEY)
        else (match Prepare(db, run, at.k + 1, skill.value, choice.Race?).1
              case Replay(answer, charged) => Account(r, at, skill.value, answer, charged)
              case Ambiguous => MarkingBlocked
              case Fresh => Calling(at)
              case Duplicate => Failing(DUPLICATE_ROW))
      case Calling(at) => if choice.Reply? then Recording(at, choice.answer) else pc
      case Recording(at, answer) =>
        var skill := SkillAt(c, r, at.k);
        if skill.None? then Failing(UNKNOWN_KEY)
        else Account(r, at, skill.value, answer, ChargeFor(c, r, at.k, answer))
      case Settling(at, verdict) =>
        (match SettleRun(db.books, run, at.total, db.now)
         case Committed(_) => Concluding(at, verdict)
         case RolledBack(e) => Failing(if e == ChargeExceedsReservation then OVER_RESERVED else NOT_OPEN))
      case Concluding(_, _) => Logging
      case Failing(code) => if RefundRun(db.books, run, db.now).Committed? then MarkingFailed(code) else Finished
      case Hanging => Hanging
      case _ => Finished
  }

  /** Where an exception takes a worker: into the except branch, or out of execute_run. */
  function RaisePc(pc: Pc, code: string): Pc {
    if pc.Hanging? then Hanging
    else if pc.Starting? || pc.Failing? || pc.MarkingFailed? || pc.MarkingBlocked? || pc.Finished? then Finished
    else Failing(code)
  }

  function StepWorker(c: Catalog, db: DB, run: nat, pc: Pc, choice: Choice): (DB, Pc) {
    if choice.Raise? then (db, RaisePc(pc, choice.code))
    else (Apply(c, db, WorkerTxn(c, db, run, pc)), NextPc(c, db, run, pc, choice))
  }

  function StepDispatcher(c: Catalog, db: DB, run: nat, pc: DispatchPc, choice: Choice): (DB, DispatchPc) {
    match pc
    // A row another dispatcher holds is skipped.
    case Looking => (db, if FindPendingEvent(db, run).Some? && !choice.Race? then Enqueuing else DispatchOver)
    // Closing the connection may raise after the job was taken (Race).
    case Enqueuing => (db, if choice.Raise? || choice.Race? then NotingFailure else MarkingDispatched)
    case MarkingDispatched => (Apply(c, db, DispatchedTxn(run)), DispatchOver)
    case NotingFailure => (Apply(c, db, DispatchFailedTxn(run)), DispatchOver)
    case DispatchOver => (db, DispatchOver)
  }

  function StepCanceller(c: Catalog, db: DB, run: nat, tenant: nat, pc: CancelPc): (DB, CancelPc) {
    match pc
    case Requesting =>
      var result := RequestCancel(db, run, tenant);
      (Apply(c, db, CancelTxn(run, tenant)),
       if result.Committed? && result.value.1 then RefundingCancelled else CancelOver)
    case RefundingCancelled => (Apply(c, db, RefundTxn(run)), CancelOver)
    case CancelOver => (db, CancelOver)
  }

  const REAP_LIMIT: nat := 200

  predicate ValidPick(db: DB, queue: seq<nat>) {
    && |queue| <= REAP_LIMIT
    && (forall run :: run in queue ==> Reapable(db, run))
    && (forall i, j :: 0 <= i < j < |queue| ==> queue[i] != queue[j])
  }

  function StepReaper(c: Catalog, db: DB, queue: seq<nat>, pc: ReapPc, choice: Choice): (DB, seq<nat>, ReapPc) {
    match pc
    case Selecting =>
      if choice.Pick? && ValidPick(db, choice.queue) && choice.queue != [] then (db, choice.queue, RefundingHead)
      else (db, [], ReapOver)
    case RefundingHead =>
      if queue == [] || RefundRun(db.books, queue[0], db.now).RolledBack? then (db, [], ReapOver)
      else (Apply(c, db, RefundTxn(queue[0])), queue, ExpiringHead)
    case ExpiringHead =>
      if queue == [] then (db, [], ReapOver)
      else (Apply(c, db, ExpireTxn(queue[0])), queue[1..], if |queue| > 1 then RefundingHead else ReapOver)
    case ReapOver => (db, [], ReapOver)
  }

  function StepOperator(c: Catalog, db: DB, run: nat, action: Action, pc: OperatorPc): (DB, OperatorPc) {
    match pc
    case Checking =>
      if !Reconcilable(db, run) then (db, OperatorOver)
      else if action.RefundIt? then (db, ClosingReservation)
      else if action.charge.None? || action.charge.value < 0 then (db, OperatorOver)
      else (db, CheckingAmount)
    case CheckingAmount =>
      var found := FindReservation(db.books, run);
      if found.None? || action.RefundIt? || action.charge.None?
         || action.charge.value > db.books.reservations[found.value].amount
      then (db, OperatorOver)
      else (db, ClosingReservation)
    case ClosingReservation =>
      if action.RefundIt? then
        (Apply(c, db, RefundTxn(run)), if RefundRun(db.books, run, db.now).Committed? then Writing else OperatorOver)
      else if action.charge.None? then (db, OperatorOver)
      else
        (Apply(c, db, SettleTxn(run, action.charge.value)),
         if SettleRun(db.books, run, action.charge.value, db.now).Committed? then Writing else OperatorOver)
    case Writing =>
      (Apply(c, db, CloseTxn(run, if action.SettleIt? && action.charge.Some? then OperatorSettled(action.charge.value)
                             else OperatorRefunded)), OperatorOver)
    case OperatorOver => (db, OperatorOver)
  }

  function StepActor(c: Catalog, db: DB, a: Actor, choice: Choice): (DB, Actor) {
    match a
    case Worker(run, pc) => (var s := StepWorker(c, db, run, pc, choice); (s.0, Worker(run, s.1)))
    case Dispatcher(run, pc) => (var s := StepDispatcher(c, db, run, pc, choice); (s.0, Dispatcher(run, s.1)))
    case Canceller(run, t, pc) => (var s := StepCanceller(c, db, run, t, pc); (s.0, Canceller(run, t, s.1)))
    case Reaper(queue, pc) => (var s := StepReaper(c, db, queue, pc, choice); (s.0, Reaper(s.1, s.2)))
    case Operator(run, action, pc) => (var s := StepOperator(c, db, run, action, pc); (s.0, Operator(run, action, s.1)))
  }

  /** The transaction an actor's step commits. */
  function ActorTxn(c: Catalog, db: DB, a: Actor, choice: Choice): Txn {
    match a
    case Worker(run, pc) => if choice.Raise? then ReadOnly else WorkerTxn(c, db, run, pc)
    case Dispatcher(run, pc) =>
      if pc.MarkingDispatched? then DispatchedTxn(run)
      else if pc.NotingFailure? then DispatchFailedTxn(run)
      else ReadOnly
    case Canceller(run, t, pc) =>
      if pc.Requesting? then CancelTxn(run, t) else if pc.RefundingCancelled? then RefundTxn(run) else ReadOnly
    case Reaper(queue, pc) =>
      if queue == [] || pc.Selecting? || pc.ReapOver? then ReadOnly
      else if pc.ExpiringHead? then ExpireTxn(queue[0])
      else RefundTxn(queue[0])
    case Operator(run, action, pc) =>
      if pc.ClosingReservation? then
        if action.RefundIt? then RefundTxn(run)
        else if action.charge.None? then ReadOnly
        else SettleTxn(run, action.charge.value)
      else if pc.Writing? then
        CloseTxn(run, if action.SettleIt? && action.charge.Some? then OperatorSettled(action.charge.value)
                      else OperatorRefunded)
      else ReadOnly
  }

  /** The call a worker in Calling has sent: it counts whether an answer, an error or a crash ends the wait. */
  function CallMade(a: Actor, choice: Choice): multiset<(nat, nat)> {
    if a.Worker? && a.pc.Calling? && (choice.Reply? || choice.Raise?) then multiset{(a.run, a.pc.at.k + 1)}
    else multiset{}
  }

  /** The row of a RUNNING run that an actor's next block locks, writes or inserts a reference to. */
  function Row(c: Catalog, db: DB, a: Actor, choice: Choice): Option<nat> {
    match a
    case Worker(run, pc) =>
      if choice.Raise? then None
      else if pc.Starting? || pc.Concluding? || pc.MarkingFailed? || pc.MarkingBlocked? then Some(run)
      else if pc.Preparing? && NextPc(c, db, run, pc, choice).Calling? then Some(run)
      else None
    case Canceller(run, t, pc) =>
      if pc.Requesting? && run < |db.runs| && db.runs[run].tenant == t then Some(run) else None
    case Operator(run, _, pc) => if pc.Writing? then Some(run) else None
    case _ => None
  }

  /** `calls` records every provider call by run and sequence number, those cut short by a crash included;
      `jobs` are the jobs Redis holds and `sent` those it was ever given, by run. */
  datatype Sys = Sys(db: DB, actors: seq<Actor>, calls: multiset<(nat, nat)>, jobs: set<nat>, sent: set<nat>)

  /** A hanging worker holds its run's row, so a block that needs the row waits for it. */
  predicate Waits(c: Catalog, s: Sys, a: Actor, choice: Choice) {
    var row := Row(c, s.db, a, choice);
    row.Some? && Worker(row.value, Hanging) in s.actors
  }

  /** The job a dispatcher's step hands to Redis. */
  function Sending(a: Actor, choice: Choice): set<nat> {
    if a.Dispatcher? && a.dispatch.Enqueuing? && !choice.Raise? then {a.run} else {}
  }

  /** The job a worker's step finishes, by returning or by raising. A crash finishes none: the job is
      delivered again. */
  function Finishing(a: Actor, next: Actor): set<nat> {
    if a.Worker? && !a.pc.Finished? && next.Worker? && next.pc.Finished? then {a.run} else {}
  }

  datatype Event =
    | Client(txn: Txn)
    | Spawn(actor: Actor)
    | Act(i: nat, choice: Choice)
    | Crash(i: nat)

  /** The transactions API calls, webhooks and administrators commit in one block. */
  predicate IsClient(txn: Txn) {
    || txn.CreateTenant? || txn.Deliver? || txn.AdmitAgent? || txn.AdmitSkill? || txn.Buy? || txn.RegisterPublisher?
    || txn.Publish? || txn.List? || txn.SetControl? || txn.Tick?
  }

  predicate IsFresh(a: Actor) {
    match a
    case Worker(_, pc) => pc.Starting?
    case Dispatcher(_, pc) => pc.Looking?
    case Canceller(_, _, pc) => pc.Requesting?
    case Reaper(queue, pc) => queue == [] && pc.Selecting?
    case Operator(_, _, pc) => pc.Checking?
  }

  /** A crashed process does nothing more. */
  function Dead(a: Actor): Actor {
    match a
    case Worker(run, _) => Worker(run, Finished)
    case Dispatcher(run, _) => Dispatcher(run, DispatchOver)
    case Canceller(run, t, _) => Canceller(run, t, CancelOver)
    case Reaper(_, _) => Reaper([], ReapOver)
    case Operator(run, action, _) => Operator(run, action, OperatorOver)
  }

  function Acted(c: Catalog, s: Sys, i: nat, choice: Choice): Sys
    requires i < |s.actors|
  {
    var a := s.actors[i];
    var next := StepActor(c, s.db, a, choice);
    Sys(next.0, s.actors[i := next.1], s.calls + CallMade(a, choice),
        s.jobs + Sending(a, choice) - Finishing(a, next.1), s.sent + Sending(a, choice))
  }

  function Do(c: Catalog, s: Sys, e: Event): Sys {
    match e
    case Client(txn) => if IsClient(txn) then s.(db := Apply(c, s.db, txn)) else s
    case Spawn(a) => if IsFresh(a) && (a.Worker? ==> a.run in s.jobs) then s.(actors := s.actors + [a]) else s
    case Act(i, choice) => 
      if i >= |s.actors| || Waits(c, s, s.actors[i], choice) then s else Acted(c, s, i, choice)
    case Crash(i) =>
      if i >= |s.actors| then s
      else s.(actors := s.actors[i := Dead(s.actors[i])], calls := s.calls + CallMade(s.actors[i], Raise("")))
  }

  function After(c: Catalog, s: Sys, events: seq<Event>): Sys {
    if |events| == 0 then s else Do(c, After(c, s, events[..|events| - 1]), events[|events| - 1])
  }

  function Boot(now: nat, monthStart: nat): Sys {
    Sys(EmptyDB(now, monthStart), [], multiset{}, {}, {})
  }
}
