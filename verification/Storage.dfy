/** The tables as mutable state: one method for each session_scope block or endpoint of the
    repository, in its own imperative form, proved against the transaction it commits. */
module Storage {
  import opened Rows
  import opened Tables
  import opened Pricing
  import opened Billing
  import opened Marketplace
  import opened Admission
  import opened RunBlocks
  import opened Transactions
  import opened Machine
  import opened Executor
  import opened Dispatching
  import opened Endpoints
  import opened Reaping
  import opened Consistency
  import opened Outcomes

  datatype Unit = Unit

  /** How execute_run's opening block ends, if it does. */
  datatype Beginning = GoesOn | Declines | Hangs

  /** What _execute_one returns or raises. */
  datatype Attempt = Done(answer: Answer, charge: int) | AmbiguousState | Raised(code: string)

  function AfterAttempt(r: Run, at: Local, sid: string, attempt: Attempt): Pc {
    match attempt
    case Done(answer, charge) => Account(r, at, sid, answer, charge)
    case AmbiguousState => MarkingBlocked
    case Raised(code) => Failing(code)
  }

  class Store {
    var wallets: seq<Wallet>
    var ledger: seq<LedgerRow>
    var reservations: seq<Reservation>
    var payments: seq<PaymentEvent>
    var publishers: seq<Publisher>
    var sales: seq<Sale>
    var runs: seq<Run>
    var outbox: seq<OutboxEvent>
    var executions: map<(nat, nat), Execution>
    var idempotency: map<(nat, string), IdempotencyRecord>
    var usage: seq<UsageEvent>
    var versions: seq<SkillVersion>
    var listings: seq<Listing>
    var grants: set<(nat, nat)>
    var controls: map<nat, Control>
    var now: nat
    var monthStart: nat

    function Money(): Books
      reads this
    {
      Books(wallets, ledger, reservations, payments, publishers, sales)
    }

    function Snapshot(): DB
      reads this
    {
      DB(Money(), runs, outbox, executions, idempotency, usage, versions, listings, grants, controls, now, monthStart)
    }

    constructor (at: nat, month: nat)
      ensures Snapshot() == EmptyDB(at, month)
    {
      wallets, ledger, reservations, payments, publishers, sales := [], [], [], [], [], [];
      runs, outbox, executions, idempotency, usage := [], [], map[], map[], [];
      versions, listings, grants, controls := [], [], {}, map[];
      now, monthStart := at, month;
    }

    // ----- zomega/billing.py -----

    method ProcessVerifiedPayment(p: PaymentEvent) returns (result: Outcome<bool>)
      modifies this`payments, this`wallets, this`ledger
      ensures match ProcessPayment(old(Money()), p, now)
              case RolledBack(e) => result == RolledBack(e) && Money() == old(Money())
              case Committed((b, isNew)) => result == Committed(isNew) && Money() == b
    {
      if FindPayment(payments, p.id).Some? {
        return Committed(false);
      }
      if p.tenant.Some? && p.tenant.value >= |wallets| {
        return RolledBack(ConstraintViolation);
      }
      if p.verified {
        if p.tenant.None? || p.credits <= 0 {
          return RolledBack(InvalidPayment);
        }
        var t := p.tenant.value;
        ledger := Post(ledger, [Entry(t, Credit, p.credits, PaymentEventRef(p.id))], now);
        wallets := wallets[t := wallets[t].(available := wallets[t].available + p.credits,
                                            version := wallets[t].version + 1)];
      }
      payments := payments + [p];
      return Committed(true);
    }

    method Settle(run: nat, charge: int) returns (result: Outcome<Unit>)
      modifies this`reservations, this`wallets, this`ledger
      ensures match SettleRun(old(Money()), run, charge, now)
              case RolledBack(e) => result == RolledBack(e) && Money() == old(Money())
              case Committed(b) => result.Committed? && Money() == b
    {
      var found := FindReservation(Money(), run);
      if found.None? {
        return RolledBack(NotFound);
      }
      var r := reservations[found.value];
      if r.status != Open {
        return RolledBack(ReservationNotOpen);
      }
      if charge < 0 || charge > r.amount {
        return RolledBack(ChargeExceedsReservation);
      }
      if r.tenant >= |wallets| {
        return RolledBack(NotFound);
      }
      var refund := r.amount - charge;
      var w := wallets[r.tenant];
      wallets := wallets[r.tenant := w.(reserved := w.reserved - r.amount, available := w.available + refund,
                                        version := w.version + 1)];
      reservations := reservations[found.value := r.(status := Settled, settled := charge)];
      ledger := Post(ledger, ChargeEntries(r, charge) + RefundEntries(r, found.value, refund), now);
      return Committed(Unit);
    }

    method Refund(run: nat) returns (result: Outcome<Unit>)
      modifies this`reservations, this`wallets, this`ledger
      ensures match RefundRun(old(Money()), run, now)
              case RolledBack(e) => result == RolledBack(e) && Money() == old(Money())
              case Committed(b) => result.Committed? && Money() == b
    {
      var found := FindReservation(Money(), run);
      if found.None? || reservations[found.value].status != Open {
        return Committed(Unit);
      }
      var r := reservations[found.value];
      if r.tenant >= |wallets| {
        return RolledBack(NotFound);
      }
      var w := wallets[r.tenant];
      wallets := wallets[r.tenant := w.(reserved := w.reserved - r.amount, available := w.available + r.amount,
                                        version := w.version + 1)];
      reservations := reservations[found.value := r.(status := Refunded)];
      ledger := Post(ledger, [Entry(r.tenant, Kind.Refund, r.amount, ReservationRef(found.value))], now);
      return Committed(Unit);
    }

    // ----- zomega/run_service.py -----

    /** Moves credits from available to reserved, with the reservation and its ledger row. */
    method HoldCredits(t: nat, run: nat, amount: int)
      requires t < |wallets|
      modifies this`wallets, this`reservations, this`ledger
      ensures Money() == Hold(old(Money()), t, run, amount, now)
    {
      hide Post;
      var w := wallets[t];
      wallets := wallets[t := w.(available := w.available - amount, reserved := w.reserved + amount,
                                 version := w.version + 1)];
      ledger := Post(ledger, [Entry(t, Reserve, -amount, ReservationRef(|reservations|))], now);
      reservations := reservations + [Reservation(t, run, amount, 0, Open, now, now + RESERVATION_SECONDS)];
    }

    /** The rows an admitted request inserts. */
    method InsertRun(q: Request) returns (run: nat)
      requires q.tenant < |wallets|
      modifies this`wallets, this`reservations, this`ledger, this`runs, this`idempotency, this`outbox
      ensures run == old(|runs|) && runs == old(runs) + [NewRun(q, now)]
      ensures Money() == Hold(old(Money()), q.tenant, run, q.fingerprint.reservation, now)
      ensures idempotency
           == if Keyed(q) then old(idempotency)[(q.tenant, q.key.value) := IdempotencyRecord(q.fingerprint, run)]
                             else old(idempotency)
      ensures outbox == old(outbox) + [OutboxEvent(run, false, 0, now)]
    {
      hide NewRun, Hold;
      run := |runs|;
      runs := runs + [NewRun(q, now)];
      HoldCredits(q.tenant, run, q.fingerprint.reservation);
      if Keyed(q) {
        idempotency := idempotency[(q.tenant, q.key.value) := IdempotencyRecord(q.fingerprint, run)];
      }
      outbox := outbox + [OutboxEvent(run, false, 0, now)];
    }

    method Create(q: Request) returns (result: Outcome<Admitted>)
      modifies this`wallets, this`reservations, this`ledger, this`runs, this`idempotency, this`outbox
      ensures match CreateRun(old(Snapshot()), q)
              case RolledBack(e) => result == RolledBack(e) && Snapshot() == old(Snapshot())
              case Committed((db, admitted)) => result == Committed(admitted) && Snapshot() == db
    {
      hide AdmissionError, Hold, NewRun;
      if Keyed(q) && (q.tenant, q.key.value) in idempotency {
        var existing := idempotency[(q.tenant, q.key.value)];
        if existing.fingerprint != q.fingerprint {
          return RolledBack(KeyReused);
        }
        return Committed(Admitted(existing.run, true));
      }
      var refused := AdmissionError(Snapshot(), q);
      if refused.Some? {
        return RolledBack(refused.value);
      }
      if q.tenant >= |wallets| {
        return RolledBack(NotFound);
      }
      if wallets[q.tenant].available < q.fingerprint.reservation {
        return RolledBack(InsufficientCredits);
      }
      if q.fingerprint.reservation <= 0 {
        return RolledBack(ConstraintViolation);
      }
      var run := InsertRun(q);
      return Committed(Admitted(run, false));
    }

    // ----- zomega/marketplace.py -----

    /** Moves the credits of one sale and records it. */
    method Transfer(sale: Sale) returns (id: nat)
      requires sale.publisher < |publishers|
      requires sale.buyer < |wallets| && publishers[sale.publisher].tenant < |wallets|
      modifies this`wallets, this`sales, this`ledger
      ensures id == old(|sales|) && Money() == RecordSale(old(Money()), sale, now)
    {
      hide SaleEntries, Post;
      id := |sales|;
      ghost var before := Money();
      var buyer := wallets[sale.buyer];
      wallets := wallets[sale.buyer := buyer.(available := buyer.available - sale.gross, version := buyer.version + 1)];
      var seller := wallets[publishers[sale.publisher].tenant];
      wallets := wallets[publishers[sale.publisher].tenant :=
                           seller.(available := seller.available + sale.publisherCredits,
                                   version := seller.version + 1)];
      SameEntries(before, Money(), sale, id);
      ledger := Post(ledger, SaleEntries(Money(), sale, id), now);
      sales := sales + [sale];
    }

    method Buy(buyer: nat, listing: nat, key: string) returns (result: Outcome<Purchase>)
      modifies this`wallets, this`sales, this`ledger, this`grants
      ensures match PurchaseListing(old(Snapshot()), buyer, listing, key)
              case RolledBack(e) => result == RolledBack(e) && Snapshot() == old(Snapshot())
              case Committed((db, purchase)) => result == Committed(purchase) && Snapshot() == db
    {
      hide PublisherShare, FindSale, RecordSale;
      if |key| == 0 || |key| > 200 {
        return RolledBack(InvalidRequest);
      }
      var existing := FindSale(Money(), buyer, key);
      if existing.Some? {
        return Committed(Purchase(existing.value, true));
      }
      if listing >= |listings| || !listings[listing].active {
        return RolledBack(NotFound);
      }
      var l := listings[listing];
      if l.version >= |versions| || !versions[l.version].active || versions[l.version].publisher >= |publishers| {
        return RolledBack(NotFound);
      }
      var publisher := versions[l.version].publisher;
      var seller := publishers[publisher].tenant;
      if seller == buyer {
        return RolledBack(OwnListing);
      }
      if buyer >= |wallets| || seller >= |wallets| {
        return RolledBack(NotFound);
      }
      if wallets[buyer].available < l.price {
        return RolledBack(InsufficientCredits);
      }
      var share := PublisherShare(l.price, l.shareBps);
      var purchase := Transfer(Sale(buyer, publisher, listing, key, l.price, share, l.price - share));
      grants := grants + {(buyer, l.version)};
      return Committed(Purchase(purchase, false));
    }

    method AddListing(t: nat, version: nat, price: int, shareBps: int) returns (result: Outcome<nat>)
      modifies this`listings
      ensures match CreateListing(old(Snapshot()), t, version, price, shareBps)
              case RolledBack(e) => result == RolledBack(e) && Snapshot() == old(Snapshot())
              case Committed(db) => result == Committed(old(|listings|)) && Snapshot() == db
    {
      if price <= 0 || shareBps < 0 || shareBps > 10000 {
        return RolledBack(InvalidRequest);
      }
      if version >= |versions| || !versions[version].active || versions[version].publisher >= |publishers| {
        return RolledBack(NotFound);
      }
      if publishers[versions[version].publisher].tenant != t {
        return RolledBack(NotFound);
      }
      if exists l :: 0 <= l < |listings| && listings[l].version == version {
        return RolledBack(ConstraintViolation);
      }
      listings := listings + [Listing(version, price, shareBps, true)];
      return Committed(|listings| - 1);
    }

    // ----- zomega/commercial.py -----

    method UpdateControl(t: nat, control: Control) returns (result: Outcome<Unit>)
      modifies this`controls
      ensures result.Committed? <==> ValidControl(old(Snapshot()), t, control)
      ensures Snapshot() == Apply(NO_CATALOG, old(Snapshot()), SetControl(t, control))
    {
      if control.monthlyCreditLimit.Some? && control.monthlyCreditLimit.value <= 0 {
        return RolledBack(InvalidRequest);
      }
      if control.monthlyRunLimit.Some? && control.monthlyRunLimit.value <= 0 {
        return RolledBack(InvalidRequest);
      }
      if control.retentionDays < 30 {
        return RolledBack(InvalidRequest);
      }
      if t >= |wallets| {
        return RolledBack(NotFound);
      }
      var version := if t in controls then controls[t].version else 0;
      controls := controls[t := control.(version := version + 1)];
      return Committed(Unit);
    }

    // ----- zomega/outbox.py -----

    /** dispatch_run, with no other actor: `enqueued` is what Redis does. */
    method Dispatch(run: nat, enqueued: bool) returns (ok: bool)
      modifies this`outbox, this`runs
      ensures (Snapshot(), ok) == DispatchOne(old(Snapshot()), run, enqueued)
    {
      var pending := FindPendingEvent(Snapshot(), run);
      if pending.None? {
        return false;
      }
      assert outbox[pending.value].run == run;
      var found := FindEvent(Snapshot(), run);
      var e := outbox[found.value];
      if !enqueued {
        outbox := outbox[found.value := e.(attempts := e.attempts + 1, availableAt := now + Backoff(e.attempts + 1))];
        return false;
      }
      outbox := outbox[found.value := e.(dispatched := true)];
      if run < |runs| && runs[run].status == PendingDispatch {
        runs := runs[run := runs[run].(status := Queued)];
      }
      return true;
    }

    method DispatchPending(enqueued: nat -> bool, limit: nat := 100) returns (count: nat)
      modifies this`outbox, this`runs
      ensures (Snapshot(), count) == DispatchPass(old(Snapshot()), limit, enqueued)
    {
      hide DispatchOne, Selected;
      var ids := Selected(Snapshot(), limit);
      count := 0;
      for i := 0 to |ids|
        invariant (Snapshot(), count) == DispatchEach(old(Snapshot()), ids[..i], enqueued)
      {
        var ok := Dispatch(ids[i], enqueued(ids[i]));
        if ok {
          count := count + 1;
        }
        assert ids[..i + 1][..i] == ids[..i];
      }
      assert ids[..|ids|] == ids;
    }

    // ----- zomega/api.py and zomega/cli.py -----

    /** cancel_run, with no other actor between its two blocks */
    method Cancel(run: nat, tenant: nat) returns (result: Outcome<RunStatus>)
      modifies this`runs, this`reservations, this`wallets, this`ledger
      ensures Snapshot() == CancelAlone(old(Snapshot()), run, tenant)
      ensures result == if RequestCancel(old(Snapshot()), run, tenant).RolledBack? then RolledBack(NotFound)
                        else Committed(RequestCancel(old(Snapshot()), run, tenant).value.0.runs[run].status)
    {
      if run >= |runs| || runs[run].tenant != tenant {
        return RolledBack(NotFound);
      }
      var r := runs[run];
      if r.status in {Pass, Fail, Partial, Cancelled, Blocked} {
        return Committed(r.status);
      }
      if r.status in {PendingDispatch, Queued} {
        runs := runs[run := r.(status := Cancelled, cancelRequested := true)];
        var refunded := Refund(run);
        return Committed(Cancelled);
      }
      runs := runs[run := r.(status := CancelRequested, cancelRequested := true)];
      return Committed(CancelRequested);
    }

    // ----- zomega/jobs.py -----

    /** The opening block. Where it would wait for itself it leaves the tables as they are. */
    method BeginExecution(run: nat) returns (beginning: Beginning)
      modifies this`runs
      ensures match Begin(old(Snapshot()), run)
              case RolledBack(WaitsForItself) => beginning == Hangs && Snapshot() == old(Snapshot())
              case RolledBack(_) => beginning == Declines && Snapshot() == old(Snapshot())
              case Committed((db, go)) => beginning == (if go then GoesOn else Declines) && Snapshot() == db
      ensures beginning == GoesOn ==> run < |runs|
    {
      if run >= |runs| {
        return Declines;
      }
      var r := runs[run];
      if r.status !in {Queued, Running} {
        return Declines;
      }
      if r.status == Running && HasInFlight(Snapshot(), run) {
        return Hangs;
      }
      runs := runs[run := r.(status := Running, startedAt := if r.startedAt.None? then Some(now) else r.startedAt)];
      return GoesOn;
    }

    method PrepareExecution(run: nat, sequenceNo: nat, skill: string) returns (checkpoint: Prepared)
      modifies this`executions
      ensures (Snapshot(), checkpoint) == Prepare(old(Snapshot()), run, sequenceNo, skill, false)
    {
      var key := (run, sequenceNo);
      if key in executions {
        match executions[key]
        case Completed(_, answer, charged) => return Replay(answer, charged);
        case InFlight(_) => return Ambiguous;
      }
      if exists k :: k in executions && k.0 == run && executions[k].skill == skill {
        return Duplicate;
      }
      executions := executions[key := InFlight(skill)];
      return Fresh;
    }

    method CloseRun(run: nat, w: Closing)
      modifies this`runs, this`usage
      ensures Snapshot() == Close(old(Snapshot()), run, w)
    {
      if run < |runs| {
        runs := runs[run := Closed(runs[run], w)];
        if w.Passed? {
          usage := usage + [UsageEvent(run, w.tokensIn, w.tokensOut)];
        }
      }
    }

    method RecordCheckpoint(run: nat, sequenceNo: nat, answer: Answer, charge: int)
      modifies this`executions
      ensures Snapshot() == Checkpoint(old(Snapshot()), run, sequenceNo, answer, charge)
    {
      var key := (run, sequenceNo);
      if key in executions {
        executions := executions[key := Completed(executions[key].skill, answer, charge)];
      }
    }

    /** _execute_one: replays a PASS checkpoint, or calls the provider and records its answer. */
    method ExecuteOne(c: Catalog, run: nat, k: nat, ghost at: Local, sid: string, skill: Skill,
                      provider: nat -> Response)
      returns (attempt: Attempt)
      requires run < |runs| && at.k == k
      requires sid in c.skills && skill == c.skills[sid] && SkillAt(c, runs[run], k) == Some(sid)
      modifies this`executions
      ensures Solo(c, old(Snapshot()), run, Preparing(at), provider)
           == Solo(c, Snapshot(), run, AfterAttempt(runs[run], at, sid, attempt), provider)
    {
      hide SkillAt, Solo, Prepare, Checkpoint, Account, SkillCharge;
      ghost var before := Snapshot();
      var checkpoint := PrepareExecution(run, k + 1, sid);
      ghost var waiting := Snapshot();
      PrepareIsSolo(c, before, run, at, sid, provider);
      match checkpoint {
        case Replay(answer, charged) => attempt := Done(answer, charged);
        case Ambiguous => attempt := AmbiguousState;
        case Duplicate => attempt := Raised(DUPLICATE_ROW);
        case Fresh =>
          CallIsSolo(c, waiting, run, at, sid, provider);
          var response := provider(k);
          if response.Errored? {
            return Raised(response.code);
          }
          var charge := SkillCharge(skill, response.answer.tokensIn, response.answer.tokensOut);
          RecordCheckpoint(run, k + 1, response.answer, charge);
          attempt := Done(response.answer, charge);
      }
    }

    /** The generic except branch of execute_run. */
    method Abort(c: Catalog, run: nat, code: string, ghost provider: nat -> Response)
      requires run < |runs|
      modifies this`runs, this`usage, this`reservations, this`wallets, this`ledger
      ensures Snapshot() == Solo(c, old(Snapshot()), run, Failing(code), provider)
    {
      ghost var before := Snapshot();
      var refunded := Refund(run);
      ghost var middle := Snapshot();
      if refunded.RolledBack? {
        assert Stepped(c, before, run, Failing(code), provider) == (before, Finished);
        return;
      }
      CloseRun(run, Failed(code));
      AbortIsSolo(c, before, middle, run, code, provider);
    }

    /** Settlement, the status write and the return: the three ways out of the loop. */
    method Conclude(c: Catalog, run: nat, at: Local, verdict: Verdict, ghost provider: nat -> Response)
      requires run < |runs|
      modifies this`runs, this`usage, this`reservations, this`wallets, this`ledger
      ensures Snapshot() == Solo(c, old(Snapshot()), run, Settling(at, verdict), provider)
    {
      ghost var before := Snapshot();
      var settled := Settle(run, at.total);
      ghost var middle := Snapshot();
      if settled.RolledBack? {
        var code := if settled.error == ChargeExceedsReservation then OVER_RESERVED else NOT_OPEN;
        SettlementFails(c, before, run, at, verdict, provider);
        Abort(c, run, code, provider);
        return;
      }
      CloseRun(run, ClosingOf(at, verdict));
      ConcludeIsSolo(c, before, middle, run, at, verdict, provider);
    }

    /** execute_run, with no other actor: the loop over the workflow, as the worker runs it. */
    method ExecuteRun(c: Catalog, run: nat, provider: nat -> Response)
      modifies this`runs, this`usage, this`reservations, this`wallets, this`ledger, this`executions
      ensures Snapshot() == Solo(c, old(Snapshot()), run, Starting, provider)
    {
      hide Begin, Solo, Closed;
      ghost var start := Snapshot();
      var beginning := BeginExecution(run);
      StartIsSolo(c, start, run, provider);
      if beginning != GoesOn {
        return;
      }
      var r := runs[run];
      var workflow := Workflow(c, r);
      if workflow.None? {
        HeadIsSolo(c, Snapshot(), run, NOTHING_DONE, provider);
        Abort(c, run, UNKNOWN_KEY, provider);
        return;
      }
      var total, tokensIn, tokensOut, steps := 0, 0, 0, [];
      var k := 0;
      while k < |workflow.value|
        invariant k <= |workflow.value|
        invariant run < |runs| && runs[run] == r
        invariant Solo(c, start, run, Starting, provider)
               == Solo(c, Snapshot(), run, Looping(Local(k, total, tokensIn, tokensOut, steps)), provider)
      {
        var at := Local(k, total, tokensIn, tokensOut, steps);
        HeadIsSolo(c, Snapshot(), run, at, provider);
        if runs[run].cancelRequested {
          Conclude(c, run, at, CancelSeen, provider);
          return;
        }
        var sid := workflow.value[k];
        if sid !in c.skills {
          Abort(c, run, UNKNOWN_KEY, provider);
          return;
        }
        var skill := c.skills[sid];
        var remaining := r.maxSpend - total;
        if SkillReservation(skill) > remaining {
          Conclude(c, run, at, NoBudget, provider);
          return;
        }
        var attempt := ExecuteOne(c, run, k, at, sid, skill, provider);
        if attempt.AmbiguousState? {
          BlockIsSolo(c, Snapshot(), run, provider);
          CloseRun(run, BlockedAmbiguous);
          return;
        }
        if attempt.Raised? {
          Abort(c, run, attempt.code, provider);
          return;
        }
        var answer, charge := attempt.answer, attempt.charge;
        if charge > remaining {
          Abort(c, run, OVERCHARGED, provider);
          return;
        }
        total := total + charge;
        tokensIn, tokensOut := tokensIn + answer.tokensIn, tokensOut + answer.tokensOut;
        steps := steps + [Step(sid, answer.output, answer.responseId, charge)];
        k := k + 1;
      }
      var done := Local(k, total, tokensIn, tokensOut, steps);
      HeadIsSolo(c, Snapshot(), run, done, provider);
      Conclude(c, run, done, if runs[run].cancelRequested then CancelSeen else WorkflowDone, provider);
    }

    /** The reaper's two blocks for one run; `ok` is false when the refund raises. */
    method ReapRun(run: nat) returns (ok: bool)
      modifies this`runs, this`reservations, this`wallets, this`ledger
      ensures ok <==> RefundRun(old(Money()), run, now).Committed?
      ensures Snapshot() == if ok then ReapOne(old(Snapshot()), run) else old(Snapshot())
    {
      var refunded := Refund(run);
      if refunded.RolledBack? {
        return false;
      }
      if run < |runs| && runs[run].status in {PendingDispatch, Queued} {
        runs := runs[run := runs[run].(status := Fail, error := Some(EXPIRED))];
      }
      return true;
    }

    /** reservation_reaper's loop over the rows it selected. */
    method ReapReservations(queue: seq<nat>) returns (ok: bool)
      modifies this`runs, this`reservations, this`wallets, this`ledger
      ensures (Snapshot(), ok) == ReapAll(old(Snapshot()), queue)
    {
      hide ReapOne;
      for i := 0 to |queue|
        invariant (Snapshot(), true) == ReapAll(old(Snapshot()), queue[..i])
      {
        ok := ReapRun(queue[i]);
        assert queue[..i + 1][..i] == queue[..i];
        if !ok {
          RaisedStays(old(Snapshot()), queue, i + 1);
          return;
        }
      }
      assert queue[..|queue|] == queue;
      return true;
    }

    /** _reconcile_run, with no other actor between its blocks */
    method Reconcile(run: nat, action: Action) returns (result: Outcome<RunStatus>)
      modifies this`runs, this`usage, this`reservations, this`wallets, this`ledger
      ensures (Snapshot(), result) == ReconcileAlone(old(Snapshot()), run, action)
    {
      if !Reconcilable(Snapshot(), run) {
        return RolledBack(InvalidRequest);
      }
      if action.RefundIt? {
        var refunded := Refund(run);
        if refunded.RolledBack? {
          return RolledBack(refunded.error);
        }
        CloseRun(run, OperatorRefunded);
        return Committed(Fail);
      }
      if action.charge.None? || action.charge.value < 0 {
        return RolledBack(InvalidRequest);
      }
      var charge := action.charge.value;
      if charge > reservations[FindReservation(Money(), run).value].amount {
        return RolledBack(ChargeExceedsReservation);
      }
      var settled := Settle(run, charge);
      if settled.RolledBack? {
        return RolledBack(settled.error);
      }
      CloseRun(run, OperatorSettled(charge));
      return Committed(Partial);
    }
  }

  // ----- the loop's blocks as steps of the worker -----

  function AfterBegin(c: Catalog, db: DB, run: nat, provider: nat -> Response): DB
    requires Begin(db, run).Committed?
  {
    var (begun, go) := Begin(db, run).value;
    if go then Solo(c, begun, run, Looping(NOTHING_DONE), provider) else begun
  }

  lemma StartIsSolo(c: Catalog, db: DB, run: nat, provider: nat -> Response)
    ensures Begin(db, run).RolledBack? ==> Solo(c, db, run, Starting, provider) == db
    ensures Begin(db, run).Committed? ==> Solo(c, db, run, Starting, provider) == AfterBegin(c, db, run, provider)
  {
    hide Begin, HasInFlight;
    var next := Stepped(c, db, run, Starting, provider);
    assert Solo(c, db, run, Starting, provider) == Solo(c, next.0, run, next.1, provider);
    OutOfRangeBegin(db, run);
  }

  lemma OutOfRangeBegin(db: DB, run: nat)
    ensures run >= |db.runs| ==> Begin(db, run) == RolledBack(NotFound)
  {
  }

  lemma HeadIsSolo(c: Catalog, db: DB, run: nat, at: Local, provider: nat -> Response)
    requires run < |db.runs|
    ensures Solo(c, db, run, Looping(at), provider) == Solo(c, db, run, AtLoopHead(c, db.runs[run], at), provider)
  {
    hide AtLoopHead;
    assert Stepped(c, db, run, Looping(at), provider) == (db, AtLoopHead(c, db.runs[run], at));
  }

  function AfterPreparing(r: Run, at: Local, skill: string, checkpoint: Prepared): Pc {
    match checkpoint
    case Replay(answer, charged) => Account(r, at, skill, answer, charged)
    case Ambiguous => MarkingBlocked
    case Fresh => Calling(at)
    case Duplicate => Failing(DUPLICATE_ROW)
  }

  lemma PrepareIsSolo(c: Catalog, db: DB, run: nat, at: Local, skill: string, provider: nat -> Response)
    requires run < |db.runs| && SkillAt(c, db.runs[run], at.k) == Some(skill)
    ensures Solo(c, db, run, Preparing(at), provider)
         == Solo(c, Prepare(db, run, at.k + 1, skill, false).0, run,
                 AfterPreparing(db.runs[run], at, skill, Prepare(db, run, at.k + 1, skill, false).1), provider)
  {
    hide SkillAt, Account, SettleRun, RefundRun, Prepare;
    var next := Stepped(c, db, run, Preparing(at), provider);
    assert Solo(c, db, run, Preparing(at), provider) == Solo(c, next.0, run, next.1, provider);
  }

  function AfterCall(c: Catalog, db: DB, run: nat, at: Local, skill: string, provider: nat -> Response): DB
    requires run < |db.runs| && skill in c.skills
  {
    match provider(at.k)
    case Errored(code) => Solo(c, db, run, Failing(code), provider)
    case Answered(answer) =>
      var charge := SkillCharge(c.skills[skill], answer.tokensIn, answer.tokensOut);
      Solo(c, Checkpoint(db, run, at.k + 1, answer, charge), run, Account(db.runs[run], at, skill, answer, charge),
           provider)
  }

  /** The provider call and, if it answers, the checkpoint. */
  lemma CallIsSolo(c: Catalog, db: DB, run: nat, at: Local, skill: string, provider: nat -> Response)
    requires run < |db.runs| && SkillAt(c, db.runs[run], at.k) == Some(skill) && skill in c.skills
    ensures Solo(c, db, run, Calling(at), provider) == AfterCall(c, db, run, at, skill, provider)
  {
    hide SkillAt, Account, SettleRun, RefundRun, Checkpoint;
    var next := Stepped(c, db, run, Calling(at), provider);
    assert Solo(c, db, run, Calling(at), provider) == Solo(c, next.0, run, next.1, provider);
    if provider(at.k).Answered? {
      var answer := provider(at.k).answer;
      var last := Stepped(c, db, run, Recording(at, answer), provider);
      assert Solo(c, db, run, Recording(at, answer), provider) == Solo(c, last.0, run, last.1, provider);
    }
  }

  lemma BlockIsSolo(c: Catalog, db: DB, run: nat, provider: nat -> Response)
    requires run < |db.runs|
    ensures Solo(c, db, run, MarkingBlocked, provider) == Close(db, run, BlockedAmbiguous)
  {
    assert Stepped(c, db, run, MarkingBlocked, provider) == (Close(db, run, BlockedAmbiguous), Finished);
  }

  lemma SettlementFails(c: Catalog, db: DB, run: nat, at: Local, verdict: Verdict, provider: nat -> Response)
    requires run < |db.runs| && SettleRun(db.books, run, at.total, db.now).RolledBack?
    ensures Solo(c, db, run, Settling(at, verdict), provider)
         == Solo(c, db, run, Failing(if SettleRun(db.books, run, at.total, db.now).error == ChargeExceedsReservation
                                     then OVER_RESERVED else NOT_OPEN), provider)
  {
    hide SettleRun, RefundRun, AtLoopHead, Begin;
    var next := Stepped(c, db, run, Settling(at, verdict), provider);
    assert Solo(c, db, run, Settling(at, verdict), provider) == Solo(c, next.0, run, next.1, provider);
  }

  lemma ConcludeIsSolo(c: Catalog, before: DB, middle: DB, run: nat, at: Local, verdict: Verdict,
                       provider: nat -> Response)
    requires run < |before.runs| && SettleRun(before.books, run, at.total, before.now).Committed?
    requires middle == before.(books := SettleRun(before.books, run, at.total, before.now).value)
    ensures Solo(c, before, run, Settling(at, verdict), provider) == Close(middle, run, ClosingOf(at, verdict))
  {
    Settles(c, before, run, at, verdict, provider);
  }

  lemma SameEntries(b: Books, b': Books, s: Sale, id: nat)
    requires b.publishers == b'.publishers && s.publisher < |b.publishers|
    ensures SaleEntries(b, s, id) == SaleEntries(b', s, id)
  {
  }
}
