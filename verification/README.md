# Reliable execution, verified

A Dafny model of the repository's reliable-execution layer: the small transactional protocols that
keep refunds, model budgets, agent runs, consent, stock, plan runs, intakes and reviews correct
under crashes, retries, duplicate or reordered callbacks and concurrent workers.

How it is modelled:

- Every `with engine.begin()` block is one atomic function on the tables it touches (`...Tx`). A
  read made before it is a stale local copy: workers and threads keep it in their state, anybody may
  run in between, and only then comes the conditional update. A crash drops local variables only. A
  violated unique constraint undoes the whole block.
- Objects whose methods update tables are classes with the tables as fields. Their loops and updates
  are proved equal to the `...Tx` functions; the interleaved protocols are state machines over the
  same functions, and the theorems are about every run of those machines. A retry loop takes a
  parameter `lost`: how many of its first attempts lose the race against somebody else.
- The `...Effects` modules (and `LeaseTiming`, `RunClaiming`) say in terms of the stored rows alone
  when each transaction accepts, with which error it refuses and what it changes; the theorems over
  whole runs build on the same functions.
- The `...Progress` modules say what an undisturbed worker achieves from any reachable state, so that
  the safety theorems are not met by a machine that does nothing.
- The clock is an input. It is arbitrary unless a result says otherwise.
- Identifiers drawn at random are parameters that must be new. Hashes are collision free. Money is
  in cents, tokens are integers, times and scores are reals.

## The files

| files | what they hold |
|---|---|
| `LeaseQueue`, `LeaseTiming`, `LeaseProtocol`, `LeaseProgress` | lease, fence and version protocol of the delivery queues, alone, in time, with any number of workers, and left undisturbed |
| `RefundTables`, `RefundWorkflow`, `SandboxStore` | the refund transactions, the workflow object, the independent provider with faults |
| `RefundInvariant`, `RefundProtocol`, `RefundSafety`, `RefundSteps`, `RefundTheorems` | both databases, dispatchers, reconcilers, callbacks and the network; the invariant; the promises |
| `RefundEffects`, `RefundProgress`, `RefundExhaustion` | what each refund transaction accepts and writes; what undisturbed workers achieve; when a refund is left to a human |
| `RefundConvergence` | exactly when the order of receipts cannot matter, on the row and on the tables |
| `Budget`, `BudgetEffects`, `BudgetConservation`, `BudgetConcurrency`, `RateLimiter` | token ledger, what each transaction bills, conservation, the concurrency limit under any clock, the two 60-second limits |
| `Handoff`, `RunQueue`, `RunRepository`, `RunEffects`, `RunClaiming`, `RunProtocol`, `RunSafety`, `RunTheorems`, `RunCalls`, `RunProgress` | human ownership and the durable agent-run queue |
| `Consent`, `ConsentEffects`, `ConsentTheorems` | action proposals, single-use confirmation, takeover |
| `Inventory`, `InventoryDelivery`, `InventoryEffects`, `InventorySafety`, `InventoryProgress` | reservations and the query-before-retry worker |
| `PlanRuns`, `PlanRunEffects`, `PlanRunRefinement`, `PlanRunService` | plan-run fencing in two back ends and their exact agreement |
| `Intake`, `IntakeEffects`, `IntakeTheorems` | intake commands composed with the consent store |
| `Chunking`, `Citations`, `Ranking`, `RankingEffects`, `RankingLaws` | splitting, citations, hybrid ranking over the reals |
| `Evaluation`, `EvaluationEffects`, `EvaluationGate`, `Reviews`, `ReviewEffects`, `ReviewAgreement` | two producer/validator pairs |

## Where the code falls short of a promise

- Receipts converge whatever their order exactly when no success is followed by a higher version.
  `RefundConvergence.TablesConvergeIff` proves both halves on the tables, through the inbox and every
  identity check; `LateFailureDiverges` is the smallest failing input. The provider sandbox always
  meets the condition (`RefundTheorems.ProviderIsOrdered`); the workflow alone does not enforce it.
- The two plan-run back ends differ when a run id is reused (the JSON file accepts it, the primary
  key does not: `ReusedRunIdDiverges`) and when a repository opened for one user writes another
  user's run (the JSON file ignores the filter: `ForeignUserDiverges`). `StepAgreesIff` and
  `HistoriesAgreeIff` in `PlanRunRefinement` are exact.
- A plan run that takes over announces that the run before it was fenced, also when that run had
  ended by itself. `PlanRunServices.FenceAnnouncedIff`: the announcement is true exactly when the
  plan still had a running run.
- Under a clock that runs backwards more reserved calls than the concurrency limit can be unexpired
  at once (`BudgetConservation.BackwardClockOverbooks`), because an expired call no longer counts but
  is not settled either. `BudgetConcurrency.ReserveKeepsLimitIff`: a reservation keeps the limit at
  every reading exactly when each of its scopes had fewer unsettled calls, expired or not, than the
  limit; `LimitHoldsThroughoutIff` is the same for whole runs. The per-minute bound holds for any
  clock.

## Model

| member | source | states |
|---|---|---|
| `LeaseQueues.TryClaimKeeps` | app/repositories/delivery.py:83-116 | a claim computed from an arbitrarily old row either changes nothing or was computed from the current row, raises fence and attempt by one, keeps attempt within the limit |
| `LeaseQueues.FinishKeeps` | app/repositories/delivery.py:154-178 | finish succeeds only for the row exactly as it was claimed, keeps the fence and yields sent, dead or pending with attempts left |
| `LeaseQueues.RetireAllKeeps` | app/services/refund_workflow.py:367-390 | the bulk close by a terminal receipt keeps every row's limits and history |
| `LeaseQueues.LeaseQueue.Enqueue` | app/repositories/delivery.py:16-51 | a new message is a pending row with no attempts; an existing message id changes nothing |
| `LeaseQueues.LeaseQueue.Claim` | app/repositories/delivery.py:69-116 | the loop over a stale poll takes the first row whose version is still current and buries exhausted rows on the way |
| `LeaseQueues.LeaseQueue.Finish` | app/repositories/delivery.py:154-178 | lease check, status decision and backoff of a finish, in one step |
| `LeaseTiming.NewIsDue` | app/repositories/delivery.py:16-51 | a new message is due exactly from its delay on, unheld, with all its attempts |
| `LeaseTiming.ClaimHolds` | app/repositories/delivery.py:92-152 | a granted claim passes the lease check, may finish and keeps every poll away at exactly the readings before now + lease |
| `LeaseTiming.OwnedIff` | app/repositories/delivery.py:118-152 | a claim passes the lease check exactly while its row runs under its owner and fence and the lease has not ended |
| `LeaseTiming.ExhaustedIsDead` | app/repositories/delivery.py:87-116 | a claim that finds no attempt left closes the row for good with ATTEMPTS_EXHAUSTED |
| `LeaseTiming.BackoffDoubles` | app/repositories/delivery.py:154-178 | the backoff starts at one second, doubles with every attempt and is at most a minute; a given delay replaces it |
| `LeaseTiming.FinishReschedules` | app/repositories/delivery.py:154-178 | a finish ends the claim: delivered without error or delay, dead without attempts left, otherwise due exactly after the delay or backoff |
| `LeaseTiming.RetiredIsOut` | app/services/refund_workflow.py:367-390 | a terminal receipt takes every row of its operation out of the queue and touches no other |
| `LeaseTiming.ReopenedIsDue` | app/services/refund_workflow.py:413-452 | a reopened row is due at once with twelve more attempts |
| `LeaseTiming.ClaimTakesFirst` | app/repositories/delivery.py:69-116 | the loop over a poll of any age takes the first row unchanged since the poll with an attempt left, buries the exhausted ones it passes and touches nothing else |
| `LeaseProtocol.AttemptsAndFences` | app/repositories/delivery.py:69-178 | in every run attempts never exceed the limit, a pending row has one left, and the granted fences are exactly 1..attempt |
| `LeaseProtocol.OneHolderPerFence` | app/repositories/delivery.py:92-116 | two workers never hold the same fence of the same message |
| `LeaseProtocol.OlderFenceIsDead` | app/repositories/delivery.py:118-178 | once a fence is granted no check, guard or finish with a smaller one ever succeeds |
| `LeaseProtocol.OwnedIsCurrent` | app/repositories/delivery.py:118-152 | a claim that still passes the lease check is the unchanged row |
| `LeaseProtocol.LeaseIsExclusive` | app/repositories/delivery.py:69-152 | after a claim, whatever the others do with polls read before now + lease, nobody else is granted the message, its row stays as claimed and its holder owns it at exactly those readings |
| `LeaseProgress.InsertStores` | app/repositories/delivery.py:16-51 | a new message is in the queue, due after its delay with all its attempts |
| `LeaseProgress.UndisturbedAttemptEnds` | app/repositories/delivery.py:69-178 | one undisturbed attempt at a due message ends as delivered, dead without attempts left, or due again after delay or backoff |
| `LeaseProgress.UndisturbedPollBuries` | app/repositories/delivery.py:87-116 | a due message without attempts left is closed by the next poll and granted to nobody |
| `LeaseProgress.RetireAndReopen` | app/services/refund_workflow.py:367-438 | a terminal receipt takes out exactly the messages of its operation; reopening puts exactly a finished one back |
| `LeaseProgress.CrashForgets` | app/repositories/delivery.py:118-152 | a crashed worker changes nothing more and nobody else loses anything |
| `LeaseProtocol.ClaimsBounded` | app/repositories/delivery.py:92-116 | without an operator's reopening a message is claimed at most max_attempts times |
| `RefundTables.FindByKey` | app/services/refund_workflow.py:103-131 | the operation of an idempotency key, or none exactly when there is none |
| `RefundEffects.ReceiptAcceptedIff` | app/services/refund_workflow.py:289-324 | a receipt under a new event id is accepted if and only if provider, command, amount and reference are the operation's; otherwise nothing is written and the error names the first difference |
| `RefundEffects.UnknownKeyIsRefused` | app/services/refund_workflow.py:289-299 | a receipt whose key names no operation is refused |
| `RefundEffects.RepeatedEventChangesNothing` | app/services/refund_workflow.py:271-288 | a repeated event repeats its outcome; the same id with another body is a conflict |
| `RefundEffects.ReceiptWrites` | app/services/refund_workflow.py:325-401 | what an accepted receipt leaves in operation, case, outbox, jobs and inbox, when it is the newest and when it is not |
| `RefundEffects.KnownKeyAnswers` | app/services/refund_workflow.py:103-122 | a known key answers the same request with its operation and any other request with a conflict |
| `RefundEffects.NewKeyAnswers` | app/services/refund_workflow.py:123-200 | a new key is queued if and only if the case is the caller's and approved; which refusals are retried |
| `RefundEffects.NewKeyWrites` | app/services/refund_workflow.py:145-197 | operation, message, job and case as queueing leaves them, the message due at once and the query two seconds later |
| `RefundEffects.AttemptIsCounted` | app/services/refund_workflow.py:202-229 | an attempt is counted exactly for the holder of the lease and an undecided operation |
| `RefundEffects.DoubtIsWritten` | app/services/refund_workflow.py:231-262 | doubt is written exactly for an undecided operation when it says something new |
| `RefundEffects.RequeueReopens` | app/services/refund_workflow.py:413-452 | who may ask for another round of queries, which jobs it makes due, and that the outbox is left alone |
| `RefundWorkflows.RefundWorkflow.Find` | app/services/refund_workflow.py:103-131 | the lookup by idempotency key over the operation rows |
| `RefundWorkflows.RefundWorkflow.Enqueue` | app/services/refund_workflow.py:102-200 | up to twelve attempts of the transaction that checks the case and commits operation, case, outbox and job together; what each refusal leaves unchanged |
| `RefundWorkflows.RefundWorkflow.MarkAttempt` | app/services/refund_workflow.py:202-229 | the guarded attempt count; settled operations are left alone |
| `RefundWorkflows.RefundWorkflow.MarkUnknown` | app/services/refund_workflow.py:231-262 | an uncertain outcome becomes unknown or needs_reconciliation and never failed |
| `RefundWorkflows.RefundWorkflow.ApplyReceipt` | app/services/refund_workflow.py:264-404 | duplicate, refused, ignored and absorbed receipts, and all five tables after each |
| `RefundWorkflows.RefundWorkflow.RequeueReconciliation` | app/services/refund_workflow.py:413-452 | every known operation of this provider that has neither succeeded nor failed gets another round of queries; an absent, settled or foreign-provider one is refused |
| `RefundInvariant.EnqueueKeeps` | app/services/refund_workflow.py:133-196 | committing a refund keeps the coupling of the five tables |
| `RefundInvariant.EnqueueComplete` | app/services/refund_workflow.py:133-196 | an accepted enqueue leaves operation, case, message and job complete |
| `RefundInvariant.MarkAttemptKeeps` | app/services/refund_workflow.py:202-229 | counting an attempt keeps the coupling and never passes the queue's own count |
| `RefundInvariant.MarkUnknownKeeps` | app/services/refund_workflow.py:231-262 | recording doubt keeps the coupling |
| `RefundInvariant.ApplyReceiptKeeps` | app/services/refund_workflow.py:264-404 | applying any genuine receipt, late, repeated or out of order, keeps the coupling |
| `RefundInvariant.TerminalReceiptRetiresJob` | app/services/refund_delivery.py:114-122 | after a terminal receipt the query job is already closed, so the reconciler may return without finishing it |
| `RefundInvariant.ReceiptReflected` | app/services/refund_workflow.py:325-390 | after an accepted receipt the operation's version is at least the receipt's |
| `RefundInvariant.RequeueKeeps` | app/services/refund_workflow.py:413-452 | reopening the queries keeps the coupling |
| `SandboxStores.SandboxStore.Conflicting` | app/sandbox/store.py:163-187 | finds a refund with the same order or operation under another key, if there is one |
| `SandboxStores.SandboxStore.Submit` | app/sandbox/store.py:116-187 | idempotent submission with faults: same command repeats the receipt, another command conflicts, delays and rejections as configured |
| `SandboxStores.SandboxStore.SettleDue` | app/sandbox/store.py:218-252 | every due refund still in progress is settled from a row read earlier, others are left alone |
| `RefundEffects.FirstStatus` | app/sandbox/store.py:146-162 | the first receipt is in progress exactly under a delay fault and failed exactly under a rejection, for the amount of the order |
| `RefundEffects.SubmitAnswers` | app/sandbox/store.py:116-187 | a known key repeats its receipt or conflicts; a new one is accepted exactly for the owner of an order without a refund |
| `RefundEffects.SubmitWrites` | app/sandbox/store.py:146-209 | the stored refund, its callback, and that a delayed one is due exactly after the fault's delay |
| `RefundEffects.SettleWrites` | app/sandbox/store.py:218-252 | a settlement takes effect exactly on a row unchanged since the poll, and what it writes |
| `SandboxStores.SubmitKeeps` | app/sandbox/store.py:116-187 | orders and operations stay unique and stored refunds only move forward |
| `SandboxStores.SettleKeeps` | app/sandbox/store.py:218-252 | settlement keeps the same, raises the version and never reopens a settled refund |
| `RefundSteps.StepKeeps` | app/services/refund_delivery.py:30-138 | each of the thirty steps of dispatch, reconciliation, provider, callbacks, operators and crashes keeps the whole-system invariant |
| `RefundTheorems.NeverRefundedTwice` | app/services/refund_delivery.py:39-138 | in every run the provider holds at most one refund per order and per operation |
| `RefundTheorems.VerdictIsTheProviders` | app/services/refund_workflow.py:264-404 | an operation is succeeded or failed only if the provider's row is, with the same identity, refund id, version and receipt |
| `RefundTheorems.AmountsMatch` | app/services/refund_workflow.py:317-366 | in every run whatever receipt an operation has taken is for the amount of its case and is the result the case shows |
| `RefundTheorems.FailedIffRejected` | app/sandbox/store.py:140-252 | in every run the provider's refund has failed if and only if its order was set to reject |
| `RefundTheorems.SilenceDecidesNothing` | app/services/refund_delivery.py:46-73 | timeouts, lost replies and crashes alone never make an operation succeeded or failed |
| `RefundTheorems.TablesAgree` | app/services/refund_workflow.py:133-196 | operation, case, job, outbox and provider agree in every reachable state; attempts stay within the queue's and within eight |
| `RefundTheorems.OneMessageOneCase` | app/services/refund_workflow.py:133-196 | every operation has exactly one message and no case has two operations |
| `RefundTheorems.AtMostEightSubmissions` | app/services/refund_workflow.py:184-184 | at most eight steps of a run put one refund on the wire, each under a fence of its own and always with the same command |
| `RefundTheorems.ProviderIsOrdered` | app/sandbox/store.py:116-252 | in every run the receipts issued under one key have one body per version and a success is the last of them |
| `RefundTheorems.OnlySendSubmits` | app/services/refund_delivery.py:75-138 | reconciliation, callbacks and operators never submit a refund |
| `RefundTheorems.VerdictIsFinal` | app/services/refund_workflow.py:355-390 | after a verdict the operation's row never changes, its message stays sent and its job closed |
| `RefundProgress.UndisturbedDispatchSettles` | app/services/refund_delivery.py:30-73 | from any reachable state one undisturbed dispatch of a due message carries the provider's success into operation and case and closes message and job |
| `RefundProgress.UndisturbedQuerySettles` | app/services/refund_delivery.py:75-138 | so does one undisturbed query when the reply to an earlier submission was lost |
| `RefundProgress.CallbackSettles` | app/services/refund_workflow.py:406-411 | so does a callback that arrives first |
| `RefundProgress.UndisturbedFailureIsRecorded` | app/services/refund_delivery.py:60-73 | a dispatch whose call fails leaves the operation in doubt and the message due after the backoff, or on the last attempt the message dead and the operation to a human |
| `RefundProgress.UndisturbedQueryFailureIsRecorded` | app/services/refund_delivery.py:125-137 | a failed query is repeated after the backoff and the last one leaves an undecided operation to a human |
| `RefundProgress.UndisturbedEmptyQueryIsRepeated` | app/services/refund_delivery.py:111-122 | a query that finds nothing is repeated after two seconds and the last one leaves the operation to a human |
| `RefundProgress.UndisturbedSweepLeavesToHuman` | app/services/refund_delivery.py:77-103 | when no query is due, an undecided operation whose query is dead is left to a human |
| `RefundExhaustion.StepFair` | app/services/refund_delivery.py:68-137 | no step leaves an operation to a human, or gets ready to, unless its message was claimed eight times or its query twelve times |
| `RefundExhaustion.OnlyTheTriedAreLeft` | app/services/refund_delivery.py:30-138 | in every run an operation that waits for a human has had its message claimed eight times or its query twelve times |
| `RefundConvergence.FoldMonotone` | app/services/refund_workflow.py:325-354 | provider versions never go back and a success is never overwritten |
| `RefundConvergence.FoldIsLatest` | app/services/refund_workflow.py:325-354 | when no success precedes a newer receipt every schedule ends with the newest one it delivered |
| `RefundConvergence.ConvergesIff` | app/services/refund_workflow.py:325-354 | on one row, all orders and repetitions of a set of receipts end alike if and only if no success is followed by a higher version |
| `RefundConvergence.LateFailureDiverges` | app/services/refund_workflow.py:264-411 | of a refund just committed, success at version 1 and failure at version 2 through the receipt transaction: in order the case is completed, in the other order it has failed |
| `RefundConvergence.PlayFollows` | app/services/refund_workflow.py:202-411 | the tables refine the fold of the delivered receipts: repeated events stop at the inbox, attempts and doubts decide nothing |
| `RefundConvergence.TablesConvergeIff` | app/services/refund_workflow.py:264-411 | on the tables, all schedules of a set of receipts, with whatever else in between, settle operation and case alike if and only if no success is followed by a higher version |
| `RefundConvergence.SchedulesConverge` | app/services/refund_workflow.py:264-411 | on the real tables, two schedules with the same receipts, repeated, reordered and mixed with attempts and doubts, leave the same verdict in operation and case |
| `RefundConvergence.EnqueueStarts` | app/services/refund_workflow.py:133-196 | what enqueue commits is a starting point of convergence |
| `Budget.SharedBudget.CountCalls` | app/platform/budget.py:117-135 | the count queries over the ledger |
| `Budget.SharedBudget.Reserve` | app/platform/budget.py:64-172 | sixteen attempts, three accounts, three rate scopes; a refusal at any point leaves nothing behind |
| `Budget.SharedBudget.Settle` | app/platform/budget.py:174-245 | actual usage, or the reservation when usage is unknown, replaces what was reserved |
| `Budget.SharedBudget.Reconcile` | app/platform/budget.py:247-326 | a later receipt corrects a charge exactly once |
| `Budget.SharedBudget.Expire` | app/platform/budget.py:328-345 | expiry settles calls read earlier and skips those settled since |
| `BudgetEffects.ReserveAcceptedIff` | app/platform/budget.py:64-135 | a reservation is accepted if and only if the estimate is positive, three accounts can carry it and three scopes are below both rates; which of these is reported |
| `BudgetEffects.ReserveHolds` | app/platform/budget.py:71-169 | an accepted reservation adds one call, holds the estimate in its three accounts and changes no other |
| `BudgetEffects.SettleBills` | app/platform/budget.py:174-245 | settling takes the reservation off its three accounts and bills them prompt plus completion, or the reservation when usage is unknown |
| `BudgetEffects.SettleOnlyReserved` | app/platform/budget.py:186-187 | settling changes nothing for a call that is no longer reserved |
| `BudgetEffects.ReconcileCorrects` | app/platform/budget.py:247-326 | a receipt is accepted exactly for a call that waits for one and replaces the charge by the use |
| `BudgetConservation.BooksBalance` | app/platform/budget.py:71-317 | in every run each account's reserved and spent are the sums over its calls, and spent plus reserved never exceeds the budget by more than actual overruns |
| `BudgetConservation.ChargedForUse` | app/platform/budget.py:174-317 | in every run a call is charged input plus output tokens once they are known and its reservation while they are not |
| `BudgetConservation.TenantIsTheSum` | app/platform/budget.py:71-114 | the tenant account equals the sum over users and the sum over models |
| `BudgetConservation.ChargedOnce` | app/platform/budget.py:174-345 | after a call stopped being reserved no settlement or expiry of any run changes it; only a reconciliation of its own can, while it waits for one, and only once |
| `BudgetConservation.RpmBound` | app/platform/budget.py:117-135 | no half-open 60-second window of any run holds more than rpm calls of a scope, for any clock |
| `BudgetConservation.ConcurrencyBound` | app/platform/budget.py:117-135 | unexpired reserved calls of a scope never exceed the limit at times not before the reservations |
| `BudgetConservation.BackwardClockOverbooks` | app/platform/budget.py:117-135 | two accepted reservations that are both active under a limit of one after the clock went back |
| `BudgetConcurrency.ActiveAlwaysIff` | app/platform/budget.py:117-135 | an account has at most n active calls at every clock reading if and only if it has at most n unsettled ones |
| `BudgetConcurrency.ReserveKeepsLimitIff` | app/platform/budget.py:117-135 | an accepted reservation leaves its scopes within the limit at every reading if and only if each had fewer unsettled calls than the limit before |
| `BudgetConcurrency.LimitHoldsThroughoutIff` | app/platform/budget.py:64-345 | in a whole run every account stays within the limit at every reading if and only if every accepted reservation found such a slot in all of its scopes |
| `RateLimiter.SlidingWindowRateLimiter.Acquire` | app/infrastructure/model_gateway.py:54-66 | the waiting loop over successive clock readings: deque, grant and every sleep |
| `RateLimiter.GrantsAMinuteApart` | app/infrastructure/model_gateway.py:54-66 | the (i + limit)-th grant is at least 60 seconds after the i-th |
| `RateLimiter.GrantedIffRoom` | app/infrastructure/model_gateway.py:58-64 | an attempt is granted if and only if fewer than limit of all grants ever made lie in the last minute, although the deque forgets |
| `RateLimiter.OneSleepIsEnough` | app/infrastructure/model_gateway.py:64-66 | a refused caller sleeps between 0 and 60 seconds and is granted at its next attempt if nobody else tries |
| `RateLimiter.LoneCallerSleepsOnce` | app/infrastructure/model_gateway.py:54-66 | after any history the whole loop of a lone caller is granted: at once if there is room, otherwise after exactly one sleep that ends when the limit-th newest grant is a minute old |
| `Handoffs.TransitionMoves` | app/platform/conversation_handoff.py:93-146 | a successful take or release changes the holder and raises the version by one; a refused one changes nothing; only the owner releases |
| `RunRepositories.RunRepository.Submit` | app/repositories/runs.py:77-151 | a new run with its first event, the earlier run of the same request, or the reason for refusal |
| `RunRepositories.RunRepository.Deliver` | app/repositories/runs.py:201-243 | completing a displaced run empties the public reply, keeps the draft and drops the history unless handed off |
| `RunRepositories.RunRepository.Change` | app/repositories/runs.py:165-282 | the one conditional update: ownership, version, indexes, session check, row, event and history together |
| `RunRepositories.RunRepository.Claim` | app/repositories/runs.py:303-369 | the candidate loop: unsafe, cancelled and exhausted runs are closed on the way, the first sound one is taken |
| `RunRepositories.RunRepository.CancelRun` | app/repositories/runs.py:385-406 | sixteen attempts of a cancellation of the caller's own run |
| `RunRepositories.RunRepository.ReplayRun` | app/repositories/runs.py:408-430 | only a safe dead letter of this build is replayed |
| `RunRepositories.RunRepository.MutateOwned` | app/repositories/runs.py:450-461 | thirty-two attempts of a holder's write under its lease |
| `RunRepositories.SubmitIsIdempotent` | app/repositories/runs.py:119-138 | repeating a request after it was stored changes nothing |
| `RunEffects.SubmitStoresIff` | app/repositories/runs.py:77-151 | a request is stored exactly when its run id and key are new and its session has no unfinished run |
| `RunEffects.NewRunWaits` | app/repositories/runs.py:77-151 | a stored run is queued, due at once, with no attempt, no call and nothing written |
| `RunEffects.ClaimDecides` | app/repositories/runs.py:314-369 | what becomes of a due candidate: set aside in doubt, cancelled in time, buried without attempts, or handed out |
| `RunEffects.ClaimHolds` | app/repositories/runs.py:342-383 | a granted run is its holder's at exactly the readings before the lease ends and due from then on |
| `RunEffects.HeartbeatRenews` | app/services/runs.py:34-52 | a heartbeat moves the end of the lease and nothing else |
| `RunEffects.CancelDecides` | app/repositories/runs.py:385-406 | a cancellation succeeds before any write, is noted on a running run and otherwise comes too late |
| `RunEffects.ReplayDecides` | app/repositories/runs.py:408-430 | exactly a dead letter of this build without a write in doubt is replayed, due at once with three more attempts |
| `RunEffects.BeginRegisters` | app/services/run_context.py:150-193 | starting a call is refused for a cancelled run and otherwise registers one more dispatch in flight |
| `RunEffects.CompleteRecords` | app/services/run_context.py:194-226 | only a known call ends, as done or unknown |
| `RunEffects.OwnedIff` | app/repositories/runs.py:371-383 | a run is its holder's exactly while it runs under that owner and fence and the lease has not ended |
| `RunEffects.NotesAreKept` | app/services/run_context.py:137-148 | a snapshot is kept from its first reading on, a handoff is noted, and both are refused only to a run about to be cancelled |
| `RunEffects.StopDecides` | app/services/runs.py:215-246 | which stops need a human, end as cancelled, are retried after a doubling delay, or are dead letters |
| `RunEffects.FinishDelivers` | app/repositories/runs.py:201-243 | an undisturbed run stores exactly the reply given; a displaced one an empty reply and the given one as draft |
| `RunEffects.OpTakesEffectIff` | app/repositories/runs.py:165-282 | an operation planned on the current row fails only for a call of a displaced run or a changed session; otherwise row, event and history appear together |
| `RunEffects.OutdatedPlanFails` | app/repositories/runs.py:244-262 | planned on any other version it changes nothing |
| `RunClaiming.ClaimTakesFirst` | app/repositories/runs.py:303-369 | the loop over a poll of any age hands out the first unchanged candidate that may run, closes the unchanged ones it passes and touches no other run |
| `RunProtocol.OpKeeps` | app/repositories/runs.py:303-430 | every operation keeps a row's limits and never reactivates a finished run |
| `RunSafety.OpCases` | app/repositories/runs.py:165-255 | an operation planned on a row read at any earlier time changes nothing or was planned on the current row, and the unique indexes can never refuse it |
| `RunSafety.StepKeeps` | app/repositories/runs.py:77-461 | every step of submitters, workers, operators and owners keeps the invariant |
| `RunTheorems.EventLogIsExact` | app/repositories/runs.py:153-162 | the events of a run are numbered exactly 1..version |
| `RunTheorems.EventsAreFinal` | app/repositories/runs.py:153-162 | a published event is never withdrawn or rewritten |
| `RunTheorems.OneActiveRunPerSession` | app/infrastructure/database.py:415-427 | a session never has two unfinished runs |
| `RunTheorems.AttemptsWithinLimit` | app/repositories/runs.py:342-358 | attempt equals fence and stays within max_attempts through every replay |
| `RunTheorems.FinishedForever` | app/repositories/runs.py:20-21 | completed and cancelled are final with result and journal |
| `RunTheorems.WriteStartedOnce` | app/services/run_context.py:150-193 | the dispatch of a write call is registered at most once in the life of a run, across crashes, retries and replays |
| `RunTheorems.CancelledWroteNothing` | app/services/run_context.py:79-87 | a run reported as cancelled never started a write call |
| `RunTheorems.CompletedIsSettled` | app/services/runs.py:184-213 | a run reported as completed has every write it started completed |
| `RunTheorems.GrantIsSafe` | app/repositories/runs.py:321-365 | a run is only handed out when due, with an attempt left, no cancellation to honour and no write in doubt |
| `RunTheorems.FencedForever` | app/repositories/runs.py:371-383 | after a later claim nothing an earlier holder does changes the tables |
| `RunTheorems.TakeIsForever` | app/platform/conversation_handoff.py:93-146 | a take marks every collaborative run of the session for good, also after release |
| `RunTheorems.TakeoverStopsCalls` | app/repositories/runs.py:173-200 | after a take no call of an earlier run is ever started |
| `RunTheorems.StepSilences` | app/repositories/runs.py:201-243 | the step that completes such a run leaves the session history alone unless the run was handed off |
| `RunTheorems.TakeoverSilences` | app/repositories/runs.py:226-243 | a run taken over before completion can only complete with an empty public reply |
| `RunTheorems.CompletionDelivers` | app/repositories/runs.py:201-243 | in every run the completing step stores exactly the reply and history it was given as long as the agent answers for the session, and an empty reply otherwise |
| `RunCalls.CompletedCallsStay` | app/services/run_context.py:150-227 | in every run a call recorded as completed keeps its record: no later attempt dispatches it again, whoever takes the run over |
| `RunProgress.SubmissionPins` | app/web/services.py:265-280 | a submitted run waits with an empty journal and, with collaboration, is pinned to the version its conversation then has |
| `RunProgress.CallWorks` | app/services/run_context.py:150-227 | looked up, started, made and ended by an undisturbed worker a call is in the journal as done once, and nothing else changes |
| `RunProgress.LookupDecides` | app/services/run_context.py:164-173 | looking up a call counts it and says whether it may be started: not when it has ended, is a write with an open record, or the run is about to be cancelled |
| `RunProgress.UndisturbedCancelIsHonoured` | app/services/runs.py:215-246 | a cancellation asked for before any write ends the run as cancelled when its worker looks |
| `RunProgress.TakeSilences` | app/repositories/runs.py:201-243 | a conversation taken while its run is at work leaves the history alone and the reply only in the draft |
| `RunProgress.NewerHistoryIsKept` | app/repositories/runs.py:256-267 | a finish over a history somebody else has written in the meantime changes nothing |
| `RunProgress.CrashedWritesNothing` | app/repositories/runs.py:371-383 | a worker that has lost its memory of a claim writes nothing under it |
| `RunProgress.UndisturbedTryTakesEffect` | app/repositories/runs.py:303-430 | a claim, cancellation or replay takes effect when nobody comes between reading and writing |
| `RunProgress.UndisturbedRunDelivers` | app/services/runs.py:25-213 | after any history, a new request in a free conversation that one undisturbed worker handles makes its call once, stores exactly its reply and extends the history |
| `Consent.ActionService.Propose` | app/services/actions.py:104-154 | an unexpired identical proposal is offered again, otherwise a new pending one is stored |
| `Consent.ActionService.Validate` | app/services/actions.py:203-228 | which check fails, in order, and the status it leaves behind |
| `Consent.ActionService.Confirm` | app/services/actions.py:156-201 | confirming from a row read earlier: what is written, what is returned, which errors |
| `Consent.ActionService.Reject` | app/services/actions.py:230-240 | an open proposal is rejected, a started one is not |
| `Consent.ActionService.Accept` | app/platform/connector_delivery.py:119-133 | an inventory operation is accepted for a confirmed proposal only, which is completed by it |
| `Consent.ActionService.RevokeScope` | app/services/actions.py:242-251 | closes exactly the open proposals of the session |
| `Consent.ActionService.Claim` | app/services/actions.py:253-267 | true exactly when a confirmed, unexpired proposal became executing under the ownership guard |
| `Consent.ActionService.Finish` | app/services/actions.py:269-281 | only an executing proposal gets a result |
| `Consent.ActionService.TakeOrRelease` | app/platform/conversation_handoff.py:93-146 | taking over closes the session's open proposals or is refused while one executes |
| `ConsentEffects.AgentMayIff` | app/platform/conversation_handoff.py:72-91 | the agent may write exactly where the conversation is known and no human holds it |
| `ConsentEffects.TransitionDecides` | app/platform/conversation_handoff.py:93-146 | who may take or release a conversation, at which version, and which error each refusal gets |
| `ConsentEffects.ProposeStoresIff` | app/services/actions.py:104-154 | a new proposal is stored unless no session is named or an unexpired identical one exists |
| `ConsentEffects.ValidateDecides` | app/services/actions.py:203-228 | changed arguments, expiry and another business version are refused, and the last two close an open proposal |
| `ConsentEffects.ConfirmDecides` | app/services/actions.py:156-201 | exactly a pending, unexpired proposal with the presented arguments and business version becomes confirmed |
| `ConsentEffects.OldReadConfirmsPendingOnly` | app/services/actions.py:172-192 | a row read earlier confirms only what is still pending and unexpired |
| `ConsentEffects.RejectDecides` | app/services/actions.py:230-240 | rejecting closes exactly a waiting proposal |
| `ConsentEffects.OldReadRejectsOpenOnly` | app/services/actions.py:219-240 | a row read earlier closes only what is still waiting |
| `ConsentEffects.RevokeClosesExactly` | app/services/actions.py:242-251 | revoking closes every waiting proposal of the session and no other |
| `ConsentEffects.ClaimDecides` | app/services/actions.py:253-267 | a claim starts exactly a confirmed, unexpired proposal where the agent may write |
| `ConsentEffects.FinishDecides` | app/services/actions.py:269-281 | only an executing proposal gets a result and ends as completed or unknown |
| `ConsentEffects.AcceptDecides` | app/platform/connector_delivery.py:95-133 | the inventory queue takes exactly a confirmed proposal where the agent may write |
| `ConsentEffects.TakeCloses` | app/platform/conversation_handoff.py:93-146 | a take closes the session's waiting proposals with the change of hands and waits for an executing one |
| `ConsentEffects.ReviseDecides` | app/platform/conversation_handoff.py:223-271 | only the human who holds the conversation closes an approval by an edit, before it has begun |
| `ConsentEffects.IntakeDecides` | app/platform/after_sale_intake.py:245-270 | an intake closes its proposal by an update or a withdrawal unless it has begun |
| `ConsentTheorems.ConfirmUpdateKeeps` | app/services/actions.py:172-192 | status and confirmation row change together, and the row's key can never refuse it |
| `ConsentTheorems.UsedAtMostOnce` | app/services/actions.py:253-267 | over every run a proposal is used at most once, by a claim or by the inventory queue |
| `ConsentTheorems.ExecutionIsConsented` | app/services/actions.py:156-267 | a proposal has started if and only if it was used, and then it has its confirmation, by its own user, before expiry, for the hash of exactly the arguments and at the business version it was created with |
| `ConsentTheorems.SettledIsNotUsed` | app/services/actions.py:253-267 | a proposal neither pending nor confirmed is never used again |
| `ConsentTheorems.ClosedAndFinishedStay` | app/services/actions.py:219-281 | refused proposals stay refused and finished ones are frozen |
| `ConsentTheorems.TakeRevokesConsent` | app/platform/conversation_handoff.py:120-137 | after a take no proposal the session had is open or executing, or is ever used later |
| `Inventory.InventorySandbox.Reserve` | app/platform/inventory.py:64-115 | twelve attempts of an idempotent reservation |
| `Inventory.InventorySandbox.Release` | app/platform/inventory.py:117-156 | an idempotent release by the owner |
| `Inventory.ReserveConserves` | app/platform/inventory.py:64-115 | reserving keeps available plus reserved, keeps stock non-negative and moves stock exactly when it creates the key |
| `Inventory.ReleaseConserves` | app/platform/inventory.py:117-156 | releasing keeps the same and moves stock exactly when the key was still reserved |
| `InventoryEffects.ReserveDecides` | app/platform/inventory.py:64-115 | a known key repeats or conflicts; a new one is reserved exactly if the shelf holds the quantity |
| `InventoryEffects.ReleaseDecides` | app/platform/inventory.py:117-156 | only the owner releases, and only the first release returns the quantity |
| `InventoryEffects.VerifiedIff` | app/platform/connector_delivery.py:279-291 | a reply proves success exactly when every field of the receipt is the operation's |
| `InventoryEffects.QueryShows` | app/platform/inventory.py:49-62 | a query changes nothing and shows the asker's own reservation or none |
| `InventoryEffects.NextCallIs` | app/platform/connector_delivery.py:243-278 | what is sent after the query: a reservation when there is none, a release when one is held, otherwise nothing |
| `InventoryEffects.FailureIsRecorded` | app/platform/connector_delivery.py:304-324 | a failure leaves a succeeded operation alone, goes to a human on the last attempt and is otherwise retried |
| `InventoryEffects.ClosingFinishes` | app/platform/connector_delivery.py:301-324 | closing finishes the job with the code of its failure, or with none, and touches neither operation nor store |
| `InventoryEffects.OutcomeNeedsLease` | app/platform/connector_delivery.py:292-324 | success and failure reach the operation exactly under the lease of the claim |
| `InventoryEffects.SendNeedsLease` | app/platform/connector_delivery.py:261-278 | a write is sent exactly under the lease, checked once more just before |
| `InventoryEffects.SweepMarksExactly` | app/platform/connector_delivery.py:191-206 | the sweep leaves exactly the undecided operations of dead jobs to a human |
| `InventoryEffects.EnqueueStores` | app/platform/connector_delivery.py:94-161 | a command is queued with its job; a release needs the caller's own succeeded reservation |
| `InventoryEffects.QueryBeforeWrite` | app/platform/connector_delivery.py:261-278 | in every run a reservation is sent only after the store answered that there is none, a release only after it answered that one is held |
| `InventoryProgress.UndisturbedReserveSucceeds` | app/platform/connector_delivery.py:191-328 | one undisturbed round of a due job with stock on the shelf leaves operation, job and store agreeing on the reservation |
| `InventoryProgress.UndisturbedRetryOnlyQueries` | app/platform/connector_delivery.py:191-301 | when the reservation is already there, one undisturbed round reports it without any write |
| `InventorySafety.StepMoves` | app/platform/connector_delivery.py:191-328 | every step of workers, network and other clients keeps the tables' invariant and never rewrites a succeeded operation |
| `InventorySafety.StockIsConserved` | app/platform/connector_delivery.py:191-328 | under every schedule available plus still-reserved is constant per SKU and available stays non-negative |
| `InventorySafety.SucceededIsReserved` | app/platform/connector_delivery.py:261-301 | a succeeded reserve operation has its one reservation with its SKU, quantity and user; a succeeded release is released |
| `InventorySafety.SucceededIsFinal` | app/platform/connector_delivery.py:222-320 | succeeded is never overwritten by retries, late failures or sweeps |
| `InventorySafety.StockMovesWithAKey` | app/platform/inventory.py:76-156 | stock moves exactly when one key is first reserved or first released, by that key's quantity |
| `InventorySafety.KeyMovesStockTwiceAtMost` | app/platform/inventory.py:64-156 | in every run a key moves stock exactly as often as its reservation advanced: taken at most once, given back at most once |
| `PlanRuns.JsonPlanRunRepository.Claim` | app/repositories/plan_runs.py:142-189 | refused under an active lease, otherwise old runs fenced in place and the new run appended with the next token |
| `PlanRuns.JsonPlanRunRepository.Mutate` | app/repositories/plan_runs.py:320-346 | the first run with the id is transformed exactly when worker, token, latest token and status fit |
| `PlanRuns.SqlPlanRunRepository.LatestToken` | app/repositories/plan_runs.py:612-616 | the greatest token of a plan |
| `PlanRuns.SqlPlanRunRepository.Claim` | app/repositories/plan_runs.py:376-441 | the claim transaction with its unique constraints |
| `PlanRuns.SqlPlanRunRepository.ConditionalUpdate` | app/repositories/plan_runs.py:602-635 | the conditional update through the user filter |
| `PlanRunEffects.JsonClaimDecides` | app/repositories/plan_runs.py:142-189 | the file refuses a claim exactly inside another lease and otherwise fences every running run of the plan and appends the next token |
| `PlanRunEffects.JsonMutateDecides` | app/repositories/plan_runs.py:320-346 | the file writes the first run with the id exactly for its holder under the latest token, and what each write changes |
| `PlanRunEffects.SqlClaimDecides` | app/repositories/plan_runs.py:376-441 | the table refuses a claim inside another lease or with a used run id or token and otherwise does the same |
| `PlanRunEffects.SqlMutateDecides` | app/repositories/plan_runs.py:602-635 | the table writes a visible run exactly for its holder under the latest token |
| `PlanRunEffects.LeaseKeepsOthersOut` | app/repositories/plan_runs.py:154-164 | a running run keeps other claims of its plan out at exactly the readings before its lease ends |
| `PlanRunRefinement.JsonOneRunning` | app/repositories/plan_runs.py:142-189 | in the file at most one run per plan is running and it has the last token |
| `PlanRunRefinement.JsonOldTokenIsDead` | app/repositories/plan_runs.py:320-346 | every write under an earlier token is refused forever |
| `PlanRunRefinement.SqlOneRunning` | app/repositories/plan_runs.py:376-441 | the same in the database |
| `PlanRunRefinement.SqlOldTokenIsDead` | app/repositories/plan_runs.py:602-635 | the same in the database |
| `PlanRunRefinement.StepAgreesIff` | app/repositories/plan_runs.py:142-635 | both back ends give the same answer and the same runs if and only if the step reuses no run id of an unleased plan and is no live holder's write through another user's repository |
| `PlanRunRefinement.HistoriesAgreeIff` | app/repositories/plan_runs.py:142-635 | over whole histories every answer is the same if and only if every step is portable where it is made, and then both end with the same runs |
| `PlanRunRefinement.ReusedRunIdDiverges` | app/repositories/plan_runs.py:174-189 | a reused run id is accepted by the file and refused by the database |
| `PlanRunRefinement.ForeignUserDiverges` | app/repositories/plan_runs.py:602-635 | the live holder of a claim made through another user's repository writes: the file accepts it, the database refuses it |
| `PlanRunServices.PlanRunService.Start` | app/services/plan_runs.py:39-70 | the claim and the events it announces, recovery first |
| `PlanRunServices.PlanRunService.Checkpoint` | app/services/plan_runs.py:79-93 | renewal, then checkpoint, each on its own |
| `PlanRunServices.PlanRunService.Finish` | app/services/plan_runs.py:101-126 | unknown outcomes are recorded as failed |
| `PlanRunServices.StartAnnounces` | app/services/plan_runs.py:39-70 | the acquisition is the last event of a start and the only one of its kind, all carry a token above every earlier one, and an initial claim announces recovery exactly when the plan had runs |
| `PlanRunServices.FenceAnnouncedIff` | app/services/plan_runs.py:57-68 | the fence a recovery announces took place if and only if the plan still had a running run |
| `PlanRunServices.FinishIsForever` | app/services/plan_runs.py:101-126 | after an accepted finish the run's row never changes and every write to it is refused, whoever makes it |
| `PlanRunServices.CheckpointIsStored` | app/services/plan_runs.py:79-93 | a checkpoint whose renewal is accepted is stored, keeps the run running and keeps other claims out until the lease ends |
| `Intake.AfterSaleIntake.Receipt` | app/platform/after_sale_intake.py:323-342 | a repeated key gets the recorded response, or a conflict when the request differs |
| `Intake.AfterSaleIntake.Commit` | app/platform/after_sale_intake.py:234-343 | the transaction of a prepared command: everything written together, or nothing and the recorded response |
| `IntakeEffects.StripTrims` | app/platform/after_sale_intake.py:164-165 | order id and reason lose exactly their leading and trailing white space |
| `IntakeEffects.MergedIs` | app/platform/after_sale_intake.py:160-180 | an update replaces the given fields, and another order drops the evidence unless some is given |
| `IntakeEffects.CommandsAsk` | app/platform/after_sale_intake.py:152-231 | what each command makes of the row it read and when it is refused |
| `IntakeEffects.BeginReads` | app/platform/after_sale_intake.py:133-155 | a command starts from the stored row at the revision its caller saw, under a key not answered before |
| `IntakeEffects.CommitDecides` | app/platform/after_sale_intake.py:234-343 | a command takes effect exactly when intake and key are as it assumed, the proposal it replaces has not begun and the one it makes may be made; what row, event and proposals then are |
| `IntakeTheorems.StepKeeps` | app/platform/after_sale_intake.py:132-343 | commands computed outside the transaction and every other user of the proposals keep the invariant |
| `IntakeTheorems.HistoryIsTheState` | app/platform/after_sale_intake.py:298-322 | event revisions are exactly 1..revision and the stored payload is the last response |
| `IntakeTheorems.KeyTakesEffectOnce` | app/platform/after_sale_intake.py:137-150 | a request key takes effect at most once per intake under any race |
| `IntakeTheorems.ReceiptsArePermanent` | app/platform/after_sale_intake.py:323-342 | a committed response can be replayed unchanged forever |
| `IntakeTheorems.OneLiveProposal` | app/platform/after_sale_intake.py:187-223 | an intake never has two proposals of one kind that are open or carried out |
| `IntakeTheorems.StartedContentIsFrozen` | app/platform/after_sale_intake.py:245-270 | once its proposal has started, the intake shows in every later state the fields of the event that proposed it, which are the arguments the user consented to |
| `Chunking.WindowEnd` | app/platform/knowledge_documents.py:104-109 | every window ends after its start and within the page |
| `Chunking.SplitPage` | app/platform/knowledge_documents.py:102-121 | the loop over one page |
| `Chunking.SplitPages` | app/platform/knowledge_documents.py:100-124 | the pieces of all pages, or the chunk limit |
| `Chunking.WindowSizes` | app/platform/knowledge_documents.py:104-121 | windows have at most 1000 characters and all but the last at least 401 |
| `Chunking.WindowsPartition` | app/platform/knowledge_documents.py:104-121 | windows follow each other without gap or overlap to the end of the page |
| `Chunking.WindowsBreakAtLines` | app/platform/knowledge_documents.py:106-109 | a window is cut after the last line break of its second part, or at 1000 when there is none |
| `Chunking.WindowsJoin` | app/platform/knowledge_documents.py:100-121 | the windows joined are the page |
| `Chunking.PiecesAreTheWindows` | app/platform/knowledge_documents.py:110-120 | pieces are exactly the non-blank windows, with text, page, offsets and line |
| `Chunking.LinesAreCounted` | app/platform/knowledge_documents.py:110-120 | the line of a piece counts the line breaks before it |
| `Citations.ValidateCitations` | app/platform/retrieval.py:477-500 | accepted if and only if every citation names a live chunk of the release and quotes it |
| `Citations.SearchCitationsAreAccepted` | app/platform/retrieval.py:435-500 | whatever a search selects, its citations are accepted while no document is deleted |
| `Citations.AcceptedCitationsQuoteThePage` | app/platform/retrieval.py:489-499 | an accepted quote is a literal stretch of a page of the cited version |
| `Citations.IndexIsComplete` | app/platform/knowledge_documents.py:100-121 | every non-blank window of every page is an item of its version in the index |
| `Citations.LiveHitsAreCited` | app/platform/retrieval.py:435-475 | a search cites exactly its live hits |
| `Citations.CitationsLocate` | app/platform/retrieval.py:435-475 | on the page a citation names, from its start to its end, stands exactly its quote |
| `Ranking.Applicable` | app/platform/retrieval.py:71-112 | the decision agrees with the separately computed reasons |
| `Ranking.Bm25Scores` | app/platform/retrieval.py:52-68 | the scoring loops |
| `Ranking.Bm25Positive` | app/platform/retrieval.py:59-67 | a score is never negative, and positive if and only if a token is shared |
| `RankingEffects.DecisionIs` | app/platform/retrieval.py:71-112 | a document is excluded when not in force, of another type or limited to other values, needs a question when a limited dimension is not given, and applies otherwise |
| `RankingEffects.StatsCount` | app/platform/retrieval.py:53-57 | the statistics are counts of documents, words and mentioning documents |
| `RankingEffects.OnceWeighsItsRarity` | app/platform/retrieval.py:59-68 | a term found once in a document of average length weighs exactly its rarity |
| `RankingEffects.MoreOftenWeighsMore` | app/platform/retrieval.py:59-68 | more often weighs more but never 2.2 times the rarity |
| `RankingEffects.LongerWeighsLess` | app/platform/retrieval.py:59-68 | the same term in a longer document weighs less |
| `RankingEffects.RarityIs` | app/platform/retrieval.py:65 | the rarity of a term is the logarithm of documents plus one over mentioning documents plus a half |
| `RankingEffects.RarerWeighsMore` | app/platform/retrieval.py:59-68 | a rarer term has the greater rarity |
| `RankingEffects.RankIsPlace` | app/platform/retrieval.py:306-313 | a rank is the place in the order counted from one, and only positive scores have one |
| `RankingEffects.FusionAdds` | app/platform/retrieval.py:314-331 | the fused score adds the weighted reciprocal rank of each ranking that has the item |
| `RankingEffects.RankCounts` | app/platform/retrieval.py:306-313 | the rank of an item in an index is one plus the number of items with a better score, or with the same and a smaller id |
| `RankingEffects.ScoreIs` | app/platform/retrieval.py:299-343 | a search orders by BM25, by similarity or by the weighted reciprocals of the two ranks so counted, times the reranker's factor |
| `RankingEffects.SizesAreBounded` | app/platform/retrieval.py:209-215 | between one and twenty results, and a pool at least as large and at most a hundred |
| `RankingEffects.SupportedIff` | app/platform/retrieval.py:376-400 | enough evidence means as many shared tokens as required and at least one |
| `RankingEffects.ResultsQualify` | app/platform/retrieval.py:288-435 | every result is an indexed item with a positive score, enough evidence and a live document |
| `RankingEffects.QualifiedIsReturned` | app/platform/retrieval.py:299-435 | nothing that qualifies is left out while pool and results have room |
| `RankingLaws.SortIsCanonical` | app/platform/retrieval.py:307-313 | sorting by score and id does not depend on the input order |
| `RankingLaws.ResultsIgnoreIndexOrder` | app/platform/retrieval.py:299-406 | the result list does not depend on the order of the index |
| `RankingLaws.SmallerTopKIsAPrefix` | app/platform/retrieval.py:209-215 | fewer results are the beginning of more results, through pool clamp, evidence filter and deletion check |
| `RankingLaws.AheadInBothNeverLower` | app/platform/retrieval.py:315-331 | a chunk at least as high in both rankings never has a lower fused score |
| `Evaluation.ValidateDataset` | app/platform/evaluation.py:21-33 | accepted if and only if ids are distinct, splits known and no family is on both sides |
| `Evaluation.AgentEvaluationRunner.RunMatrix` | app/platform/evaluation.py:145-178 | the triple loop with its inner break |
| `Evaluation.AgentEvaluationRunner.Run` | app/platform/evaluation.py:127-230 | which check refuses, in order, and the report otherwise |
| `EvaluationEffects.DatasetIff` | app/platform/evaluation.py:21-33 | accepted exactly when ids differ and the families of the two splits are disjoint sets in both groupings |
| `EvaluationEffects.PlanIsBounded` | app/platform/evaluation_contract.py:11-30 | an accepted plan has between one and ten thousand combinations of known strategies |
| `EvaluationEffects.RowsAreTheDrivers` | app/platform/evaluation.py:145-178 | every row is the driver's answer for its case given exactly the budget left by the rows before it, and a run fails only when such an answer overshoots |
| `EvaluationEffects.RowIsJudged` | app/platform/evaluation.py:158-178 | a row passes exactly with the expected outcome, no unsafe action and sound database assertions |
| `EvaluationEffects.ReportSays` | app/platform/evaluation.py:179-230 | a report is complete exactly when no limit cut the plan short and passed exactly when it is complete, safe and every row passed |
| `EvaluationGate.ValidateReleaseReport` | app/platform/evaluation_contract.py:39-87 | accepts exactly the complete, consistent evidence |
| `EvaluationGate.MatrixIsTheProduct` | app/platform/evaluation_contract.py:29-30 | the planned keys are the full product, each once |
| `EvaluationGate.RunStaysWithinLimits` | app/platform/evaluation.py:147-178 | a run that returns has at most max_runs rows, usage within the budget, and the first planned keys in order |
| `EvaluationGate.PassedIffAccepted` | app/platform/evaluation.py:209-230 | the gate accepts a typed report exactly when the runner marked it passed |
| `EvaluationGate.WilsonContainsRatio` | app/platform/evaluation.py:182-191 | the interval always contains the observed ratio |
| `Reviews.Validate` | app/platform/reviews.py:143-165 | accepts exactly the consistent annotations |
| `Reviews.ReviewWorkspace.Save` | app/platform/reviews.py:220-240 | a save takes effect exactly when the case is known, the annotation valid and its revision current |
| `Reviews.ReviewWorkspace.ImportDrafts` | app/platform/reviews.py:282-339 | all drafts or none |
| `ReviewEffects.CiteIff` | app/platform/reviews.py:143-165 | a citation quotes its gold document character for character |
| `ReviewEffects.AnnotationIff` | app/platform/reviews.py:143-165 | what drafts, disputes and approvals must have |
| `ReviewEffects.SecondDemandsTheFirst` | app/platform/review_dataset.py:72-124 | the second validator demands of any review exactly what the first demands of an approval, and a signature and a date |
| `ReviewEffects.EveryCaseIsKnown` | app/platform/reviews.py:85-90 | every case of the dataset may be reviewed, and nothing else |
| `ReviewEffects.SaveWrites` | app/platform/reviews.py:167-240 | a save adds one revision with its history entry and touches no other case |
| `ReviewEffects.ImportDecides` | app/platform/reviews.py:282-339 | an import takes effect as a whole exactly when it names the known cases once each with sound drafts and nobody has saved meanwhile |
| `ReviewEffects.ExportShows` | app/platform/reviews.py:242-280 | an export has one row per case in order: what the workspace shows or an unsigned blank |
| `ReviewAgreement.ApplyReview` | app/platform/review_dataset.py:49-134 | accepts exactly the complete reviews and copies their outcome and gold |
| `ReviewAgreement.HistoryIsTheState` | app/platform/reviews.py:167-218 | a case's history is numbered 1..revision for good and ends with the annotation shown |
| `ReviewAgreement.SaveIffCurrent` | app/platform/reviews.py:177-206 | a stale revision never overwrites |
| `ReviewAgreement.ExportAcceptedIff` | app/platform/reviews.py:242-280 | the second validator accepts an export if and only if it is human reviewed and every review is signed |

## Left out

- Polling order, the limit of 32 rows per poll and the schema-version checks of messages: any snapshot of eligible rows is allowed, which is more than the code reads.
- Tenants: one tenant is modelled, as every query filters on it.
- Timestamps, audit rows, telemetry and the JSON form of stored values.
- Transaction isolation weaker than atomic blocks, for instance a reconciliation requeue whose update reads a row committed in between.
- Provider cost in decimals, the model catalogue and account reports of the budget; compensations and reversals of the sandbox.
- `RefundWorkflows.RefundWorkflow.MarkAttempt`: requires the operation row to exist, because the source reads it with a lookup that otherwise raises an error it does not handle.
- `RefundWorkflows.RefundWorkflow.MarkUnknown`: the same requirement.
- `RefundWorkflows.RefundWorkflow.RequeueReconciliation`: requires the case of an existing operation to exist, for the same reason.
- Dispatchers, reconcilers and inventory workers are state machines on values, one step per transaction, because the interleaving is what is proved; the objects they share are classes.
- The confirmation that precedes an inventory operation is part of the consent model and not repeated in the inventory machine.
- The ownership check a run makes before it looks up a call: it only stops calls earlier than the check that is modelled.
- Run payload fields other than calls, result, draft, handoff, session snapshot and runtime; session history writes outside a completion are arbitrary.
- Plan runs: request_cancel (the back ends differ: the file also marks runs whose lease has ended), step attempts, listing, the file's encoding, and the comparison of lease times as text.
- Connector registry checks, MCP transport and signatures: any of them may fail at any point, which sends the worker to its failure path.
- Intake: creation from another session, the views returned to the client, and the checks made by other services, which are a parameter of the command.
- Chunk parsing, tokenisation, embeddings, normalisation and the result cache; floating-point rounding of scores; ordering of chunk ids is represented by integers.
- Evaluation: per-strategy comparisons, percentiles, retrieval metrics and drivers that return fields of the wrong type.
- Review diagnosis, templates of the older review format and project creation.
