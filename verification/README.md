# The prepaid-credit protocol of zomega, verified

zomega sells credits, holds them while a run executes, charges what the run used and gives the rest
back. The code that does this is one concurrent state machine whose steps are database transactions:
API calls, payment webhooks, outbox dispatchers, any number of workers, the reservation reaper and the
operator's command line all interleave, and any of them may crash between two transactions. This
project models that machine in Dafny and proves what it keeps.

Run `dafny verify dfyconfig.toml` in this directory.

## How the model is built

* **Tables** (`Tables.dfy`). A table is a sequence of rows in insertion order and a row's position is
  its primary key; checkpoints, idempotency records and tenant controls are maps from their unique
  keys. A tenant is its wallet, because `create_tenant` inserts both together.
* **Transactions** (`Billing`, `Marketplace`, `Admission`, `RunBlocks`). Each `session_scope` block
  (zomega/db.py:14-24) is a function from tables to `Committed(new tables)` or `RolledBack(error)`, with
  the branches, error cases and constants of the source. `Transactions.Txn` collects them all;
  `Replayed` runs any history of them. Since a history may hold any transactions with any arguments,
  what holds of all histories holds of every interleaving and of a crash between any two blocks.
* **Mutable form** (`Storage.Store`). The same blocks as methods of a class that reassign its tables,
  including `execute_run` as the loop it is, `dispatch_pending` and the reaper's loop. Each method's
  `ensures` equates the new tables with the transaction, and the whole of `ExecuteRun` with `Solo`.
* **Concurrent system** (`Machine`). Actors with program counters: `execute_run`, `dispatch_run`,
  `cancel_run`, `reservation_reaper` and `_reconcile_run`, any number of each, plus one-block client
  transactions, process crashes, provider answers and errors, exceptions raised at any block, lost
  insert races, Redis failures, the jobs Redis holds and delivers again after a crash, and the opening
  block that waits for itself. `Protocol` states the invariant, `ProtocolSteps` and `Reachability` show
  that every event keeps it; `Statuses` says which status every event leaves.
* **Refinement** (`Executor`, `Isolation`, `Attempts`, `Recovery`, `Budget`, `Outcomes`). One worker
  alone is the recursive function `Solo`. A `Journey` interleaves a worker's blocks with crashes, retries
  and any transactions that do not write its run; recovery is proved about journeys.
* **What each operation does**: `Requests` and `Idempotency` (admission), `Selling` (the marketplace),
  `Quota`, `Payments`, `Dispatching`, `Reaping`, `Endpoints`, `Cancelling` and `Failures` say when each block
  or loop goes through and what exactly it leaves. `Agreement` shows that the actors of `Machine`, moving
  alone, do what these say.
* **Separate parts**: `Overrun` (when a month's spend passes its limit), `Locks` (a lock manager with
  PostgreSQL's row modes and nested sessions: exactly when blocks deadlock), `LockCover` (whatever a block
  changes it has locked), `Stranding` and `Releasing` (which open holds can still be closed), `Delivery`
  (which runs can still be started) and `RateLimit` (timed traces of the Redis counter). `Witness` and
  `Mishaps` hold concrete traces from an empty database.

## What turned out not to hold

The model follows the code. Each of these has its exact condition and a concrete trace:

* The opening block of a RUNNING run with a RUNNING checkpoint never commits. While it holds the run row
  FOR UPDATE it writes evidence through a second session (zomega/jobs.py:122, zomega/evidence.py:4-6),
  whose foreign key needs that row; the server sees no cycle and no timeout is set. A block waits for
  itself if and only if it is this one (`Locks.SelfWaitingExactlyWhen`), and a set of blocks can always be
  finished if and only if none of them is (`Locks.NoDeadlock`). So a retry that opens with
  an unresolved checkpoint does not become BLOCKED, as docs/ARCHITECTURE.md:54-55 has it: its worker
  hangs (`Recovery.AmbiguousRunHangs`, `Mishaps.HangingIsReached`).
* Crashes are not always made good. At any point of an execution the next attempt leaves the database
  that going on would have left if and only if the crash did not hit one of four windows: a provider call
  that is out, an answer not yet recorded, a failure while a RUNNING checkpoint remains, or a committed
  settlement whose status is not yet written (`Recovery.CrashMattersExactlyWhen`, `CrashAndResume`). In
  the first three the next attempt hangs; in the last it marks the run FAIL although the charge stands
  (`SettledRunFails`). `Witness.EachWindowIsReached` reaches each. Crashes anywhere else, any number of
  them, with any other transactions in between, make no difference (`InterruptionsDoNotMatter`).
* An open hold cannot always be closed. In a reachable state some events close it if and only if the run
  is not stranded (`Releasing.HoldsAreReleasable`). A run is stranded when it is RUNNING or
  CANCEL_REQUESTED, no actor is at work on it, and no new worker can take it up: it is CANCEL_REQUESTED,
  or a checkpoint is in flight, or its job is done with and no other is coming. The retry, the reaper, a
  second cancellation and the operator's command each look for another status. Each kind is reached
  (`Mishaps.CancelledIsStranded`, `InFlightIsStranded`, `UnservedIsStranded`). Safety is unaffected; the
  credits just stay reserved.
* A job can be lost. The dispatcher hands it to Redis before its last block makes the run QUEUED; a worker
  that takes it up in between finds PENDING_DISPATCH and drops it (`Delivery.DroppedExactlyWhen`). A run
  that has not started can still be started if and only if it is PENDING_DISPATCH, or QUEUED with a job,
  or with a worker or dispatcher about to provide one (`Delivery.StartableExactlyWhen`); after a dropped
  job it is not (`Mishaps.DroppedJobIsLost`), and only a cancellation or the reaper ends it.
* The month's spend can pass the credit limit that admission compares it with. A transaction takes it from
  within the limit to above it if and only if it is a purchase, or the settlement of a run admitted in
  an earlier month, that asks for more than the limit leaves (`Overrun.OverrunsExactlyWhen`; over whole
  histories `SpendStaysWithin`; `Witness.PurchaseOverruns`, `CarriedChargeOverruns`). What no history
  exceeds is the charges and holds of the runs admitted in the month (`Quota.LimitsHoldAllMonth`).
* docs/ARCHITECTURE.md:36-38 lists the quota lock before the idempotency lock; the code takes them the
  other way round (zomega/run_service.py:78-107). The model follows the code. Mixing both orders would
  deadlock (`Locks.OppositeOrdersDeadlock`).
* zomega/state.py describes legal status changes, but no writer consults it. A change is one that the
  table forbids if and only if it is a closing write over a different ended status, or PASS or PARTIAL
  over CANCEL_REQUESTED by a worker that settled without seeing the cancellation
  (`Statuses.IllegalExactlyWhen`; `EventWrites` gives the status after every event). PASS over
  CANCEL_REQUESTED and FAIL over PASS are reached (`Mishaps.PassOverCancelRequested`, `FailOverPass`).
  What does hold: a run that has ended, in whatever status, never waits, executes or is cancelled again
  (`Reachability.EndedForGood`), and PASS, PARTIAL and CANCELLED agree with the money, while FAIL only
  means that the hold is no longer open (`StatusAgreesWithMoney`).

## Assumptions

* A block is atomic. For wallets and reservations the code ensures it with `FOR UPDATE`. For
  `run.status` it does not, because several writers read the row with a plain `db.get`; a lost update of
  a status between two overlapping blocks is not modelled.
* An admission sees one snapshot: its two SELECTs over the ledger and the reservations
  (zomega/commercial.py:147-160) are part of one transaction here.
* The catalog is fixed, prices are non-negative, reservations positive and workflows free of
  duplicates and of unknown skills (`ValidCatalog`).
* The request hash is injective, and different advisory-lock keys do not collide.
* Time never runs backwards, and a new month starts after every row already written.

## Model

| member | source | states |
|---|---|---|
| Pricing.ChargeIsMetered | zomega/pricing.py:8-12 | a metered charge starts at the base price and grows by the input price with each thousand of input tokens started, by the output price with each thousand of output tokens, and by nothing in between |
| Pricing.FixedChargeIsFixed | zomega/pricing.py:6-7 | a fixed price does not depend on the tokens |
| Pricing.ChargeIsMonotone | zomega/pricing.py:4-12 | with prices that are not negative a charge is never negative and never falls when more tokens are used |
| Storage.Store.ProcessVerifiedPayment | zomega/billing.py:18-69 | one delivery: duplicate, rolled back, recorded or credited, with the whole new state |
| Payments.DeliveryDecides | zomega/billing.py:18-69 | a known event id changes nothing; a new delivery is rolled back, recorded, or recorded and credited with its row, each exactly when |
| Payments.CreditsOncePerEvent | zomega/billing.py:29-69 | after any deliveries a wallet has gained exactly the credits of the first committed delivery of each new event id, and its version counts them |
| Payments.FirstCommittedIsFirst | zomega/billing.py:30-49 | the delivery that counts is the first acceptable one with its id, and there is at most one for each id |
| Payments.OrderAndRepeatsDoNotMatter | zomega/billing.py:28-49 | when equal ids carry equal contents, permuting or repeating deliveries gives the same wallets |
| Payments.WebhookCredits | zomega/api.py:176-206 | a Stripe event is rolled back only for an unknown tenant, and credits its package if and only if it is a paid checkout whose signed amount agrees |
| Storage.Store.Settle | zomega/billing.py:71-108 | settlement: error cases in order, or both balances, the reservation and the two optional ledger rows |
| Storage.Store.Refund | zomega/billing.py:110-131 | refund of an open reservation, and nothing otherwise |
| BooksInvariant.SettleCloses | zomega/billing.py:71-108 | settlement of a run's reservation: which error, or both balances, the reservation and the charge and refund rows, each to the credit |
| BooksInvariant.RefundCloses | zomega/billing.py:110-131 | a refund closes an open reservation with nothing charged and leaves any other alone |
| BooksInvariant.CloseKeeps | zomega/billing.py:71-131 | closing a reservation either way keeps the wallet fold, the exact ledger rows, conservation and the spend cover |
| BooksInvariant.CloseExpected | zomega/billing.py:84-108 | closing a reservation adds exactly its closing rows to what the ledger must hold for it and nothing for anything else |
| Consistency.ApplyKeeps | zomega/db.py:14-24 | every transaction, whatever its arguments, keeps all the tables consistent |
| Consistency.HistoryKeeps | zomega/db.py:14-24 | so does every history, crashes between blocks included |
| Consistency.Reconciles | zomega/billing.py:133-156 | in a consistent database reconcile_wallet reports ok for every tenant, with the sums it compares |
| Consistency.TenantStartsEmpty | zomega/admin.py:29-36 | a new tenant gets an empty wallet and nothing else changes |
| Consistency.DriftIsFound | zomega/billing.py:133-156 | had a wallet any other balances than it has, reconcile_wallet would report it |
| Consistency.WalletFoldsLedger | zomega/billing.py:59-131 | available is the sum of the credit, reserve, refund and marketplace rows; reserved is minus the reserve and refund rows plus the charge rows |
| Consistency.RunLedgerRows | zomega/billing.py:88-131 | a run leaves exactly its reserve row, then nothing, or a full refund, or its charge and the unused part with zero rows omitted; a charge and a full refund never both land |
| Consistency.LedgerKeysDiffer | zomega/models.py:62-66 | no two ledger rows share tenant, kind and reference |
| Consistency.ConstraintsAlwaysHold | zomega/models.py:47-98 | no check or unique constraint of the money tables is ever violated |
| Consistency.CreditsAreConserved | zomega/billing.py:51-98 | over any history, verified payments equal what wallets hold plus settled charges plus the platform's share |
| Consistency.ShareSplits | zomega/marketplace.py:129-130 | the publisher's floor share lies between 0 and the price and less than one credit below the exact share |
| Consistency.MarketplaceAccounts | zomega/marketplace.py:190-204 | publisher_earnings equals the tenant's marketplace_earning rows, and its marketplace_charge rows equal minus its gross purchases |
| Consistency.SalesAreFair | zomega/marketplace.py:129-174 | every recorded sale splits its listing's price exactly into two non-negative parts and its buyer holds the grant |
| Storage.Store.Buy | zomega/marketplace.py:69-188 | a purchase: replay, each refusal, or the two wallet movements, the sale, its ledger rows and the grant |
| Storage.Store.Transfer | zomega/marketplace.py:129-165 | the two-wallet transfer and its rows |
| Storage.Store.AddListing | zomega/marketplace.py:12-48 | a listing is inserted or refused as the source does, and nothing else changes |
| Selling.RegistrationDecides | zomega/registry.py:27-40 | a tenant becomes a publisher once, and only if it exists |
| Selling.PublicationDecides | zomega/registry.py:43-87 | exactly a publisher can publish, and its version is active and its own |
| Selling.ListingDecides | zomega/marketplace.py:12-48 | a listing is created exactly for an unlisted active version of the tenant's own, at a positive price and a share within 0 and 10000, and carries these terms; which refusal otherwise |
| Selling.ListedForGood | zomega/marketplace.py:35-42 | a listing keeps its terms and its owner through any history |
| Selling.PurchaseDecides | zomega/marketplace.py:75-127 | a purchase under a new key goes through exactly when the listing is someone else's, active, and the buyer has at least the price |
| Selling.PurchaseRefusals | zomega/marketplace.py:75-127 | which refusal it gets otherwise |
| Selling.PurchaseRecords | zomega/marketplace.py:129-176 | it moves the price from the buyer and the rounded-down share to the publisher, adds the sale, its ledger rows and the grant, and changes nothing else |
| Selling.ListThenBuy | zomega/marketplace.py:12-176 | after a listing and any history everyone else who has the listed price can buy, and the sale pays the publisher the listed share of it, rounded down |
| Idempotency.RepeatedPurchase | zomega/marketplace.py:79-90 | a purchase key replays the same sale after any history and moves no credit, whatever listing it is presented for |
| Storage.Store.Create | zomega/run_service.py:64-174 | admission: replay, each refusal with no change, or all of an admitted request's rows |
| Storage.Store.InsertRun | zomega/run_service.py:124-174 | the run, hold, idempotency record and event an admission inserts |
| Requests.AgentRequestDecides | zomega/run_service.py:43-62 | an agent call is refused for an unknown agent or skill or a budget that is not positive, and otherwise reaches admission with its tenant, payload and key, for the least of the workflow's reservations, the cap and max_spend |
| Requests.SkillRequestDecides | zomega/run_service.py:26-41 | a skill call reaches admission exactly for an enabled skill of the plan, for its agent and whole reservation |
| Idempotency.RequestCarries | zomega/run_service.py:26-62 | a request carries its call's tenant, key, payload and what it asked to run |
| Idempotency.RepeatedAdmission | zomega/run_service.py:78-99 | a call that has created a run under a key has added one run, and after any history no call by that tenant under that key changes anything: an equal one returns the first run, one with another payload is refused |
| Idempotency.KeyedAdmission | zomega/run_service.py:78-174 | one keyed admission moves the hold between the wallet's balances and creates one run, its reservation, its reserve row and its event, column by column, or replays, or is refused; unless it creates it changes nothing |
| Idempotency.UnkeyedAdmission | zomega/run_service.py:101-174 | without a key every admission that commits creates a run with the same rows |
| Idempotency.KeyChanges | zomega/run_service.py:158-164 | no transaction rebinds or drops a key, and only a creating admission under a key binds it |
| Idempotency.OneRunPerKey | zomega/run_service.py:78-99 | over any history at most one run is created under a key: exactly one if the key got bound, none otherwise |
| Idempotency.RepeatedRequest | zomega/run_service.py:90-99 | after any history the same request returns the first run and changes nothing, and a different one is refused |
| Storage.Store.UpdateControl | zomega/commercial.py:35-64 | set_control writes the row and counts its version up exactly when the limits are positive, retention is at least 30 days and the tenant exists |
| Quota.AdmittedExactlyWhen | zomega/commercial.py:129-170 | a new request is admitted if and only if the tenant has the credits for a positive reservation, the allow-lists permit it and both monthly limits leave room |
| Quota.RefusedBecause | zomega/commercial.py:129-170 | which refusal a new request gets: the first of the allow-lists, the run limit, the credit limit, the wallet and the reservation that fails |
| Quota.ControlIsStored | zomega/commercial.py:44-59 | a valid control row is stored column by column with its version counted up, and an invalid one changes nothing |
| Quota.AdmissionWithinLimits | zomega/commercial.py:138-170 | an admission that passes the check leaves the month's exposure and run count within the limits |
| Quota.TxnWithinLimits | zomega/commercial.py:115-170 | no transaction takes a tenant over a limit it was within |
| Quota.LimitsHoldAllMonth | zomega/commercial.py:115-170 | while limits and month stay fixed, no history takes charges plus open holds of the month's runs, or their number, over the limits |
| Quota.NewMonthStartsEmpty | zomega/commercial.py:14-16 | a new month starts with nothing counted against either limit |
| Overrun.OverrunsExactlyWhen | zomega/commercial.py:147-162 | a transaction takes the month's spend from within the limit to above it if and only if it is a purchase, or a settlement of an earlier month's run, for more than was left |
| Overrun.SpendStaysWithin | zomega/commercial.py:147-162 | over a whole history, months included, the spend never passes the limit if and only if no transaction in it overruns |
| Witness.PurchaseOverruns | zomega/marketplace.py:119-165 | a history in which a purchase takes the spend from nothing over the limit |
| Witness.CarriedChargeOverruns | zomega/billing.py:71-108 | a trace in which a worker's ordinary settlement of last month's run does so, without any purchase |
| Storage.Store.Dispatch | zomega/outbox.py:13-63 | dispatch_run's blocks for each outcome of the enqueue |
| Storage.Store.DispatchPending | zomega/outbox.py:65-81 | the selection of due events, oldest first and up to the limit, and the loop with its counter equal the recursive pass |
| Dispatching.DispatchOneTries | zomega/outbox.py:35-63 | one dispatch marks a pending event and queues its waiting run if Redis takes the job, counts the failure and sets the delay if not, and changes nothing else |
| Dispatching.PassTries | zomega/outbox.py:65-81 | a pass over any rows tries each event as often as it was selected, with exactly those effects |
| Dispatching.RefusalsCount | zomega/outbox.py:44-46 | n refusals at any instants are counted one by one and the last sets the delay: 2, 4, 8, ..., 256 seconds |
| Dispatching.DueWhen | zomega/outbox.py:70-71 | a new event is due at once and a refused one exactly when its delay is over |
| Dispatching.PassDispatches | zomega/outbox.py:65-81 | a pass dispatches exactly the pending rows Redis takes, queues those still waiting, returns their number and changes nothing else but retry bookkeeping |
| Dispatching.PassShortens | zomega/outbox.py:65-81 | a pass takes exactly the oldest `limit` due events off what is due: those Redis takes are dispatched, the others put off, no dispatched one reverts |
| Dispatching.PassesDrain | zomega/outbox.py:65-81 | of n due events ceil(n / limit) passes leave none due whatever Redis does, and every one that Redis takes throughout is dispatched |
| Dispatching.BackoffGrows | zomega/outbox.py:46 | retry delays never shrink, start at two seconds and stay at 256, so the cap of 300 never applies |
| Storage.Store.Cancel | zomega/api.py:249-274 | cancel_run for each status of the run |
| Endpoints.CancelDecides | zomega/api.py:249-274 | only the run's own tenant can cancel, an ended run stays as it was, and an executing one is asked to stop and keeps its hold |
| Endpoints.CancelReturnsHold | zomega/api.py:262-273 | cancelling a run that has not started returns its whole hold to its own wallet, and no worker starts it afterwards |
| Endpoints.AdmitThenCancel | zomega/api.py:262-273 | admission followed by cancellation leaves every balance as it was |
| Endpoints.CancelTwice | zomega/api.py:260-268 | a second cancellation changes nothing |
| Storage.Store.Reconcile | zomega/cli.py:15-61 | the operator's refund or settlement, or a refusal with no change |
| Endpoints.OperatorDecides | zomega/cli.py:15-61 | the operator's command is carried out exactly on a run blocked as ambiguous with an open hold and for no more than the hold; the run, reservation and wallet it then leaves |
| Agreement.CancellerAgrees | zomega/api.py:249-274 | the machine's canceller, alone, does what cancel_run is said to do |
| Agreement.DispatcherAgrees | zomega/outbox.py:13-63 | so does its dispatcher, whether the enqueue goes through, is refused, or raises after Redis took the job |
| Agreement.OperatorAgrees | zomega/cli.py:15-61 | so does its operator, for every action |
| Agreement.ReaperAgrees | zomega/jobs.py:223-243 | so does its reaper after each run of its queue, a refund that raises included |
| Endpoints.ReconcileOnce | zomega/cli.py:24-27 | once an operator's decision is carried out, any further one is refused |
| Storage.Store.BeginExecution | zomega/jobs.py:106-130 | the opening block: it declines, starts the run, or never commits because it waits for itself |
| Storage.Store.PrepareExecution | zomega/jobs.py:26-51 | replay, ambiguity, a fresh RUNNING row or a constraint violation |
| Storage.Store.ExecuteOne | zomega/jobs.py:53-92 | one skill: a replay, or the provider call and its checkpoint, as two or three blocks of Solo |
| Storage.Store.ExecuteRun | zomega/jobs.py:105-218 | the loop with its accumulators leaves exactly the database of the recursive worker |
| Storage.Store.Conclude | zomega/jobs.py:94-103 | settlement, the status write and, if the settlement fails, the exception path |
| Storage.Store.Abort | zomega/jobs.py:210-218 | the exception path: refund, then FAIL |
| Executor.RankDrops | zomega/jobs.py:143-201 | every block of a worker brings it closer to the end |
| Executor.ReplayAll | zomega/jobs.py:54-64 | a worker goes through PASS checkpoints without touching the database and has then rebuilt the loop variables |
| Attempts.BlockKnows | zomega/jobs.py:105-218 | after every block the loop variables are those the checkpoints rebuild, the settlement of a rebuilt total can only find the hold closed, and a failure about to be reported would recur |
| Isolation.OthersLeaveRun | zomega/db.py:14-24 | a transaction that does not write a run leaves its row, reservation, checkpoints and usage alone |
| Isolation.SoloReadsItsRun | zomega/jobs.py:105-218 | a worker ends alike in any two databases that are alike on its run, whatever else they hold and whatever the time |
| Recovery.InterruptionsDoNotMatter | zomega/jobs.py:26-218 | however blocks interleave with other transactions, and however often the worker crashes outside the windows, the run row, reservation, checkpoints, tokens and ledger rows end as in one uninterrupted execution |
| Recovery.CrashMattersExactlyWhen | zomega/jobs.py:105-218 | at any point of such an execution a crash is made good if and only if it is outside the windows; inside them the run ends differently |
| Recovery.CrashAndResume | zomega/jobs.py:105-218 | with nothing else going on, a crash after n blocks leads to the uninterrupted end if and only if it is outside the windows |
| Recovery.AmbiguousRunHangs | zomega/jobs.py:112-123 | on a RUNNING run with a RUNNING checkpoint the next attempt hangs in its opening block and writes nothing, BLOCKED included |
| Recovery.SettledRunFails | zomega/jobs.py:192-218 | after a crash between settlement and status write the charge stands and the next attempt only marks FAIL |
| Witness.EachWindowIsReached | zomega/jobs.py:53-92 | a reachable run gets to each window |
| Budget.StopIsLeast | zomega/jobs.py:148-151 | the loop stops at the least index whose reservation exceeds what is left, or at the end |
| Budget.MoreBudgetRunsMore | zomega/run_service.py:50-54 | in the budget arithmetic a larger budget never stops earlier |
| Outcomes.LargerBudgetDoesMore | zomega/run_service.py:50-54 | of two runs of one workflow with the same answers, the one with the larger max_spend executes at least as long a prefix |
| Budget.CoveredBudgetSuffices | zomega/run_service.py:17-24 | a budget that covers every reservation is not exhausted if each charge is within its own |
| Outcomes.AgentBudget | zomega/run_service.py:43-62 | an admitted agent run's budget is the least of its workflow's reservations, the platform cap and max_spend; it covers the workflow if and only if neither of the others is smaller |
| Outcomes.SkillBudget | zomega/run_service.py:26-41 | a skill run is admitted only for its plan and agent, and its budget covers its one skill |
| Outcomes.UndisturbedRun | zomega/jobs.py:143-201 | a fresh run executes exactly that prefix, is charged and settled its sum, reports its outputs in order and, if it is the whole workflow, its token totals, and ends PASS or PARTIAL accordingly |
| Outcomes.OverchargedRun | zomega/jobs.py:167-170 | a run whose skill charges more than is left fails there: its checkpoints stay, it is charged nothing and the whole hold goes back |
| Cancelling.CancellationIsHonoured | zomega/jobs.py:94-103 | a worker at its loop head of a run with a requested cancellation and an open hold, moving alone, settles its total, gives the rest back, writes CANCELLED with its steps and calls nobody; nothing else changes |
| Cancelling.CancellationIsAlwaysHonoured | zomega/jobs.py:144-190 | so in every reachable state |
| Cancelling.NoSkillAfterCancellation | zomega/jobs.py:144-146 | whatever else happens, a worker that came to its loop head after the request never inserts a checkpoint or calls the provider again |
| Cancelling.NobodyHangsWhenAsked | zomega/api.py:252-274 | in no reachable state does a worker hang on a run whose cancellation was requested |
| Failures.RaisingFails | zomega/jobs.py:134-218 | an exception at any block inside the try leads to the refund with its message, and one outside ends the worker |
| Failures.UnknownSkillFails | zomega/jobs.py:135-148 | a run whose agent or skill the catalog does not know fails with the key error |
| Failures.FailedRefundEnds | zomega/jobs.py:211 | should the refund itself fail, the worker ends and the run stays as it was |
| Failures.FailureRefunds | zomega/jobs.py:210-218 | a failing run ends FAIL with the message, its open hold returned in full, its checkpoints and everything else as they were |
| Failures.ErringCallFails | zomega/jobs.py:66 | so does a run whose provider errs, with the checkpoint still RUNNING |
| Failures.PreparingDecides | zomega/jobs.py:26-51 | exactly when a checkpoint is replayed, ambiguous or inserted, and with which answer |
| Failures.AmbiguousStepBlocks | zomega/jobs.py:203-209 | a worker that meets a RUNNING checkpoint blocks the run and leaves hold and checkpoint alone |
| Outcomes.FailsExactlyWhenOvercharged | zomega/jobs.py:167-170 | a fresh run whose provider answers ends FAIL if and only if a skill the loop reaches charges more than is left |
| Outcomes.CoveredRunPasses | zomega/jobs.py:151-165 | a covered run never ends BUDGET_EXHAUSTED: it does its whole workflow and passes |
| Protocol.KnowledgeSurvives | zomega/jobs.py:105-218 | what an actor has established survives every other actor's step |
| ProtocolSteps.OneRunStep | zomega/jobs.py:94-216 | a block that touches one run keeps every run's invariant if it keeps that run's |
| Reachability.WorkerStep | zomega/jobs.py:26-218 | every block of a worker keeps the runs' invariant and its own knowledge, and completes only its own checkpoint |
| Reachability.StepIsTransaction | zomega/db.py:14-24 | every step of an actor commits one transaction, so what holds of all histories holds of the system |
| Reachability.EventKeeps | zomega/jobs.py:105-244 | every event, crashes included, keeps the system's invariant |
| Reachability.AlwaysSafe | zomega/jobs.py:105-244 | the invariant holds after any sequence of events |
| Reachability.AlwaysReconciles | zomega/billing.py:150-156 | in every reachable state every wallet reconciles and every money constraint holds |
| Reachability.StatusAgreesWithMoney | zomega/jobs.py:94-216 | PASS and PARTIAL imply settled for the charged amount, FAIL implies not open, CANCELLED implies charged equals settled; PASS is charged the sum of its whole workflow, and a run stopped for its budget or on a cancellation the sum of a prefix of PASS checkpoints |
| Reachability.DispatchPrecedesExecution | zomega/run_service.py:132-173 | every run has one reservation and one event; pending implies PENDING_DISPATCH, CANCELLED or FAIL; QUEUED, RUNNING or any checkpoint implies dispatched |
| Reachability.DispatchedForGood | zomega/outbox.py:49-62 | a dispatched event never reverts, under racing dispatchers, Redis failures and crashes |
| Statuses.EventWrites | zomega/jobs.py:94-242 | the status every event leaves, from the acting actor's place and the status before; no other event changes it |
| Statuses.IllegalExactlyWhen | zomega/state.py:1-12 | a change is one the table forbids if and only if it is a closing write over another ended status, or PASS or PARTIAL over CANCEL_REQUESTED |
| Mishaps.PassOverCancelRequested | zomega/jobs.py:188-197 | a trace in which a worker writes PASS over CANCEL_REQUESTED |
| Mishaps.FailOverPass | zomega/jobs.py:210-216 | a trace in which a job delivered twice writes FAIL over PASS |
| Reachability.EndedForGood | zomega/api.py:260-268 | a run once PASS, PARTIAL, FAIL, BLOCKED or CANCELLED is never pending, queued, running or cancel-requested again |
| Reachability.CheckpointsAreMetered | zomega/jobs.py:66-81 | in every reachable state each PASS checkpoint is charged what its skill costs for the tokens it records |
| Reachability.CallsAreCounted | zomega/jobs.py:66 | a worker's wait for the provider counts as one call however it ends, and nothing else counts |
| Reachability.ProviderCalledOnce | zomega/jobs.py:26-66 | the provider is called at most once for each run and sequence number, calls cut short by a crash included |
| Reachability.CheckpointsAreAPrefix | zomega/jobs.py:112-118 | checkpoints are a contiguous prefix of the workflow, all PASS but possibly the last |
| Reachability.WorkersStayWithinBudget | zomega/jobs.py:137-171 | at every loop point of every worker the total is the sum of the checkpoints, within max_spend and the reservation |
| Reachability.SettleFailsOnlyIfClosed | zomega/billing.py:76-79 | a worker's settlement fails if and only if the reservation is no longer open |
| Storage.Store.ReapReservations | zomega/jobs.py:236-243 | the reaper's loop equals the recursive pass, a refund that raises and ends it included |
| Reaping.ReapedExactlyWhen | zomega/jobs.py:229-233 | a hold can be reaped exactly when it is open, more than two hours old and of a waiting, failed or cancelled run |
| Reaping.ReapOneCloses | zomega/jobs.py:236-243 | reaping one run returns its hold to its wallet, fails it as expired if it was waiting, and leaves every other run alone |
| Reaping.PassCloses | zomega/jobs.py:223-243 | one pass closes min(n, 200) of the n expired reservations, whichever it selects |
| Reaping.PassesDrain | zomega/jobs.py:223-243 | ceil(n / 200) passes leave none |
| Stranding.CancelThenCrashStrands | zomega/api.py:267-274 | a crash of a run's only worker after a cancellation request strands the run |
| Stranding.CrashInFlightStrands | zomega/jobs.py:112-123 | so does a crash of its only worker with a checkpoint in flight |
| Stranding.StrandedForever | zomega/jobs.py:110-123 | from there no sequence of events of any kind ever closes the hold or ends the run |
| Releasing.ReleasableExactlyWhen | zomega/jobs.py:223-243 | in a state of the system invariant some events close an open hold if and only if its run is not stranded |
| Releasing.HoldsAreReleasable | zomega/cli.py:15-61 | so in every reachable state |
| Mishaps.CancelledIsStranded | zomega/jobs.py:105-111 | a trace from an empty database that strands a hold by a cancellation and a crash |
| Mishaps.InFlightIsStranded | zomega/jobs.py:112-123 | one that does so by a crash during a provider call |
| Mishaps.UnservedIsStranded | zomega/jobs.py:210-218 | one that does so by a refund that raises |
| Mishaps.HangingIsReached | zomega/jobs.py:119-123 | a trace to a worker that hangs in its opening block |
| Delivery.DispatchedWasSent | zomega/outbox.py:28-62 | an event is marked dispatched only after its job was handed to Redis, in every reachable state |
| Delivery.JobsChange | zomega/outbox.py:29-47 | a job comes with an enqueue that Redis takes and goes when its worker returns or raises, not when it crashes |
| Delivery.DroppedExactlyWhen | zomega/jobs.py:106-130 | a worker drops its job, changing nothing, if and only if the run is neither QUEUED nor RUNNING, and hangs exactly on a RUNNING one with a RUNNING checkpoint; otherwise the run is RUNNING, since its first start |
| Delivery.StartableExactlyWhen | zomega/jobs.py:105-130 | some events start a run that has not started if and only if it is PENDING_DISPATCH, or QUEUED with a job or someone about to take up or send one |
| Mishaps.DroppedJobIsLost | zomega/outbox.py:28-62 | a trace in which an early delivery leaves a QUEUED run that nothing ever starts |
| Locks.PlansAreOrdered | zomega/marketplace.py:108-113 | every block, reconcile_wallet, the dispatcher's look and an evidence row included, takes its locks in strictly increasing rank, wallets by tenant id, but for a lock it holds itself |
| LockCover.ChangesAreLocked | zomega/billing.py:53-83 | every transaction has locked, in a mode no other writer shares, each wallet, reservation, run, checkpoint and event row it changes and each key it takes, admission's month included |
| LockCover.ReadsAreLocked | zomega/billing.py:133-138 | reconcile_wallet locks its wallet and dispatch_run the pending event it finds |
| Locks.SelfWaitingExactlyWhen | zomega/jobs.py:107-123 | a block waits for itself if and only if it is the opening block of a RUNNING run with a RUNNING checkpoint |
| Locks.RowIsWanted | zomega/evidence.py:4-6 | the blocks that wait for a hanging worker in `Machine` are exactly those whose plan asks for the run's row |
| Locks.NoCycle | zomega/billing.py:73-83 | a chain of waiting blocks closes into a cycle only through one that waits for itself |
| Locks.NoDeadlock | zomega/run_service.py:78-111 | any blocks after any schedule: some continuation ends them all if and only if none of them waits for itself |
| Locks.OnlyHangingBlocksBar | zomega/jobs.py:107-123 | and when none can move, every unfinished one waits, through others, for one that waits for itself |
| Locks.OppositeOrdersDeadlock | zomega/run_service.py:78-107 | mixing the coded and the documented order of the two admission locks would deadlock |
| RateLimit.Limiter.Enforce | zomega/rate_limit.py:7-16 | one call: the count, the expiry it may set, and whether it is admitted |
| RateLimit.WindowLasts | zomega/rate_limit.py:8-14 | a counter that is given its expiry counts for sixty seconds and no longer, and one without goes on |
| RateLimit.AdmitsTheFirstCalls | zomega/rate_limit.py:10-15 | a call is admitted if and only if fewer than the limit preceded it in its counter's lifetime |
| RateLimit.LifetimeAdmits | zomega/rate_limit.py:10-15 | one counter lifetime admits at most the limit, however EXPIREs are lost or delayed |
| RateLimit.TwoLifetimesAtMost | zomega/rate_limit.py:13-14 | no 60 seconds meet three counter lifetimes |
| RateLimit.MinuteAdmits | zomega/rate_limit.py:7-16 | any 60 seconds admit at most twice the limit |

## Left out

- Evidence and audit rows: append-only and read by no step of the protocol. `Locks` has the lock of an
  evidence row; in `Machine` only the nested write of the opening block holds a worker up, and the
  evidence that other workers of a hanging run write between their blocks does not.
- Jobs that share a process with a hanging worker stop with it, because the block is synchronous; in
  `Machine` they may go on.
- Foreign-key locks on tables that no block locks FOR UPDATE (tenants, publishers, listings, versions):
  KEY SHARE conflicts with nothing there. The plain UPDATEs of tenant controls and publisher rows: each
  block makes one such write and waits for nothing after it.
- Locks.NoDeadlock: a plan is computed from one database although a block reads each row when it
  reaches it; ranks depend only on the kind of lock and the tenant, so the order is the same.
- Recovery.InterruptionsDoNotMatter: the instant of the start may be later than in the uninterrupted
  execution if the first crash comes before the run is started; `startedAt` then differs and nothing else.
- `skip_locked` in dispatch_run: skipping never waits; in `Machine` it is a dispatcher that finds nothing.
- `Storage.Store` methods run alone: their order against other actors is the subject of `Machine`.
- Dispatching.PassDispatches: asks that event i belongs to run i, which `Consistency.HistoryKeeps` provides.
- Dispatching.PassesDrain: asks the same, and its passes happen at one instant.
- arq's job ids and timeouts: a second job for a run is not refused while the first one's result is kept,
  and a timeout, which can only hit a provider call, is a crash there whose job is delivered again.
- The third branch of `_prepare_execution` (zomega/jobs.py:41): no writer produces a checkpoint that is
  neither RUNNING nor PASS.
- The unordered LIMIT of the reaper: any selection is allowed. `created_at` orders events as they were
  inserted.
- 64-bit overflow of BigInteger columns: integers are unbounded.
- UUID primary keys: rows are numbered in insertion order.
- API keys, scopes, roles, publisher keys and signatures: access control, decided before these blocks.
- Unlisting, suspending and granting outside a purchase: they move no credit.
- The unique (publisher, skill, version) constraint of publish_skill and the default control row that
  get_control inserts: neither bears on a property here.
- Catalog and YAML loading, subscriptions, dashboards, audit retention, metrics, HTTP routing, and the
  Stripe, OpenAI and Redis clients beyond the outcomes the protocol sees.
