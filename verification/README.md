# Failed-payment recovery: verified model

A Dafny model of the parts of the recovery system that decide whether, when and how often a customer is
debited, and of the engines around them:

- **Safe execution** (`ExecutionProtocol`, `ExecutionSafety`, `ExecutionAccounting`, `ExecutionWorkflow`,
  `ExecutionRows`, `ExecutionWitness`, `ExecutionService`): any number of workers run the recovery attempt against one TTL lock
  store and one transactional database. Each step is the code between two awaits; time passes, sessions fail,
  processes die and other services write between any two steps. `ExecutionService` is the method itself, written
  imperatively and proved to be a participant of that protocol.
- **Locks** (`TtlStore`, `DistributedLock`): the lazily evicting key-value store and the leases built on it.
- **Decision boundary** (`Policy`, `Guard`, `Orchestrator`): two deterministic filters between an arbitrary plan
  and a request for another debit. The plan is universally quantified everywhere.
- **Audit chain** (`AuditChain`, `TextOrder`): append and replay of the hash-linked trail.
- **Model serving** (`CircuitBreakers`, `ModelInstances`, `LoadBalancers`): breaker, request accounting, failover.
- **Events** (`Broker`, `BrokerDelivery`, `RetryProcessor`, `ConsumerProtocol`, `Consumers`, `MessageLoss`): the
  in-memory broker, delayed retries and dead letters, idempotent consumers under redelivery and crashes, and which
  messages they lose.
- **Small parts** (`RecoveryTypes`, `Colons`, `StateMachine`, `ErrorCodes`, `RetryPolicy`, `Idempotency`).

Objects the program changes in place are classes whose methods are proved against pure functions of the old
state; the theorems are about those functions, over all histories or all interleavings.

Verify everything with `dafny verify dfyconfig.toml`.

## What the theorems show about the code

Where the code does not do what its comments say, the model follows the code, and the exact condition is proved:

- At most one successful charge per payment needs three assumptions: a worker that has called the provider keeps
  its session, commits before its lease ends, and no other service takes a completed payment back. Under them
  `ExecutionSafety.AtMostOneCharge` holds for every interleaving; dropping any one of them admits a double charge
  (`LostSessionChargesTwice`, `LateCommitChargesTwice`, `ReopenedPaymentChargesTwice`), so the three together are
  exactly what is needed (`ExecutionWitness.AtMostOneChargeIff`).
- `app/execution/idempotency.py:5-7` promises that the provider is never called twice with one key. The reservation
  is only flushed, so a session lost after the call loses it: `ExecutionWitness.LostSessionChargesTwice` is a run
  with two calls under one key. `ExecutionAccounting.OneCallPerKeyIff` says exactly when the promise holds, `CallRepeatsKeyIff`
  which call breaks it, told before it starts, and `CallsPerKey` what holds always.
- Committed states of a case need not follow the transition table: the executor validates the row it read, not the
  row its commit replaces. It can write RECOVERY_SUCCEEDED over STOPPED inside its lease
  (`ExecutionWitness.StoppedMeanwhile`), or over another executor's late RECOVERY_SUCCEEDED (`CommittedMeanwhile`).
  A commit follows the table exactly when the row committed at that moment would still allow it
  (`ExecutionWorkflow.CommitFollowsIff`).
- `recovery_state` locks nothing by itself, because each orchestration resets it; `status` and the payment's own
  status do. An executor that stops a case writes only `recovery_state`
  (`Orchestrator.RecoveryStateAloneLocksNothing`, `EndedStaysEnded`).
- The recovery window is measured from the moment the context is built (`app/orchestrator/orchestrator.py:373`), not
  from the failure; `MayRetry` states the condition as the code computes it.
- Two audit records appended for one payment without a flush between them break its chain, in whatever order they
  come (`AuditChain.UnflushedAppendsBreak`); replaying a table of intact chains as one chain is accepted exactly
  when it holds at most one payment (`GlobalReplayIff`).
- HALF_OPEN admits every caller, not a single canary; `CircuitBreakers.PermittedIff` gives the real condition.
- Queue names `topic:group` collide: a group gets what was published to its topic, once and in order, in every history
  exactly if neither the topic's name nor its own contains a colon (`BrokerDelivery.WellServedIffPlain`).
  `SharedQueueMisdelivers` shows what goes wrong otherwise; the pipeline's own names are safe.
- A crash between an orchestration's commit and its publications silences them forever: redelivery finds the
  processed_events row and stops (`ConsumerProtocol.CrashAfterCommitSilences`, `UnheardForever`). Nothing else does:
  in every other run they have been published once, or their session is about to (`UnheardIffSilenced`).
- A notification event whose notification id was already used by another event is never processed, however often
  it is delivered (`TakenIdBlocksForever`).
- A consumer that raises leaves the offset alone, but the in-memory broker has already taken the message from the
  queue. The polled message is then lost, neither waiting nor acknowledged, exactly when it does not parse or its
  handler raises (`MessageLoss.LostIffRejected`): for notifications, when its row is absent and its notification id
  taken (`NotificationLostIff`), for payment failures, when its row is absent and the orchestration raises
  (`RecoveryLostIff`). It is never delivered again (`LostForGood`); one malformed event suffices (`MalformedIsLost`).
- Instances registered under one id mask each other: failover remembers ids, so a failing instance can keep every
  attempt from one that would answer (`LoadBalancers.OneNameMasks`). Distinct ids exclude it (`DistinctIdsUnmask`).
- An empty custom rule list falls back to the ten default rules; `customer_risk_score` is not a field of the
  context, so that rule sees its default.

## Model

| member | source | states |
|---|---|---|
| ExecutionSafety.AtMostOneCharge | app/execution/service.py:130-477 | Any number of workers, any interleaving: if workers that reach the provider commit before their own lease ends (crashing anywhere earlier), a payment is charged at most once, and a charge is either committed or about to be |
| ExecutionSafety.NoCallAfterCharge | app/execution/service.py:171-192 | Under the same discipline no provider call for a payment starts once one has succeeded |
| ExecutionSafety.StepSafe | app/execution/service.py:151-430 | Every single step of every participant keeps the safety invariant |
| ExecutionSafety.LeasesExclude | app/execution/lock.py:24-32 | Two workers on one payment never both have time left on their lease |
| ExecutionSafety.LeaseStep | app/execution/lock.py:60-103 | After any step the lock store still holds the lease of every worker whose lease has not run out |
| ExecutionSafety.WinnerStays | app/execution/service.py:408-430 | A charged worker stays about to commit until its own commit marks the payment recovered |
| ExecutionAccounting.CallsAreAccountedFor | app/execution/service.py:345-430 | With no timing assumption: calls with a key = sessions lost after calling + committed attempts + the one in flight, the last two together at most one |
| ExecutionAccounting.CallsPerKey | app/execution/idempotency.py:56-102 | With no timing assumption: calls with one key never exceed one plus the aborted transactions that had reserved it |
| ExecutionAccounting.OneCallPerKeyIff | app/execution/idempotency.py:3-8 | The documented "never more than once per key" holds exactly when no session was lost after its call, or the lost call is the only one |
| ExecutionAccounting.CallRepeatsKeyIff | app/execution/idempotency.py:3-8 | Before any call: its key has been called exactly as often as sessions were lost after calling with it, so the call repeats its key exactly if one was |
| ExecutionAccounting.StepKeepsBooks | app/models/payment_attempt.py:78-92 | The unique key's books (reserved = aborted + committed + open) balance after every step |
| ExecutionWorkflow.ExecutingIsNeverCommitted | app/execution/service.py:336-343 | No reachable committed database state has a case in EXECUTING, wherever workers die |
| ExecutionWorkflow.CommitFollowsIff | app/execution/service.py:284-301 | In every run, with no assumption on time or other writers: a commit follows the transition table exactly when the row committed at that moment would still allow it |
| ExecutionWorkflow.CommitsFollowTheTable | app/execution/service.py:408-430 | Hence, if executors commit before their lease ends and nobody else writes a case under execution, every executor commit joins the case's committed states by a walk of the transition table, the direct field writes included |
| ExecutionWorkflow.CommitsAreFinal | app/execution/service.py:507-572 | An executor only ever commits a case as succeeded, failed, stopped or escalated |
| ExecutionWorkflow.LosingASessionChangesNoRow | app/execution/consumer.py:46-58 | A dropped session or a dead process changes no committed row |
| ExecutionRows.BegunReadFitRows | app/execution/service.py:171-245 | In every run, whoever has begun executing read a payment that is not SUCCESS, RECOVERED, PROCESSING or CREATED and a case in APPROVED or RECOVERY_FAILED |
| ExecutionRows.RowsWereRead | app/execution/service.py:152-169 | In every run, the payment status and the case row a worker goes by are those the database held when it read them |
| ExecutionRows.DiscardedRows | app/execution/service.py:171-245 | With both rows read, an attempt is discarded exactly for a collected or in-flight payment or an ended case, with the status of the first of these checks, and otherwise may go on |
| ExecutionRows.CommitWrites | app/execution/service.py:385-572 | In every run, what the commit of an answer writes: RECOVERED, RECOVERY_SUCCEEDED and a successful attempt for a charge; for a failure the payment is untouched, and the case is RECOVERY_FAILED if the code may be retried within the limit, else STOPPED; nothing else |
| ExecutionRows.OnlyCommitsWrite | app/execution/service.py:151-620 | Only the commit of an answer and a policy refusal change committed rows, only acquisition and release the lock store |
| ExecutionRows.BlockWrites | app/execution/service.py:284-334 | A policy refusal writes STOPPED or ESCALATED if the table allows it from the state read, and otherwise nothing |
| ExecutionRows.ReservationMeans | app/execution/idempotency.py:70-102 | The insert is refused exactly if one of the two unique values is committed, and otherwise holds both, uncommitted |
| ExecutionRows.ReleaseFreesTheKey | app/execution/lock.py:78-103 | After the release the key is free exactly if nobody else's token was visible there |
| ExecutionRows.AcquireTakesTheKey | app/execution/lock.py:60-76 | An acquisition takes a free key for the given time and changes nothing visible on a taken one |
| ExecutionWitness.RerunAfterCrash | app/execution/lock.py:27-31 | Wherever a lease holder dies before committing, once its lease has run out another worker can run the same job and collect the payment |
| ExecutionWitness.LostSessionChargesTwice | app/execution/service.py:351-430 | A run with two charges, both by calls under one idempotency key, in which only "a session survives its provider call" is violated |
| ExecutionWitness.LateCommitChargesTwice | app/execution/service.py:130-142 | A run with two charges in which only "commit before the lease ends" is violated |
| ExecutionWitness.ReopenedPaymentChargesTwice | app/services/payment_service.py:108 | A run with two charges in which only "a completed payment stays completed" is violated |
| ExecutionWitness.AtMostOneChargeIff | app/execution/service.py:130-477 | At most one charge per payment holds of all runs under a set of the three assumptions exactly if it is the full set |
| ExecutionWitness.StoppedMeanwhile | app/execution/service.py:162-162 | A run keeping all three assumptions in which another service stops the case after it was read, and the executor is about to commit RECOVERY_SUCCEEDED over STOPPED within its lease |
| ExecutionWitness.CommittedMeanwhile | app/execution/service.py:408-430 | The same over RECOVERY_SUCCEEDED, where only executors write and one of them committed after its lease |
| ExecutionService.SafeRecoveryExecutionService.ExecuteRecoveryAttempt | app/execution/service.py:116-624 | Whatever others do at each await and whichever database access raises, the attempt is a run of the protocol; the provider is called only for a payment read as neither collected nor in flight and a case read as APPROVED or RECOVERY_FAILED, after the reservation; each pair of rows that must not be charged gives its discard and its status, and each answer the status the retry table gives it; every status is explained by the complete list of moves; a failure is recorded only if a database access raises or a wait for a unique value that nobody will give back is given up; and the lease goes back last on every path that took it |
| ExecutionService.SafeRecoveryExecutionService.Attempt | app/execution/service.py:151-620 | The body of the try block ends about to release, with exactly the moves its status allows, and fails only for one of those two causes |
| ExecutionService.SafeRecoveryExecutionService.Handle | app/execution/service.py:171-334 | A payment in SUCCESS, RECOVERED, PROCESSING or CREATED and a case in RECOVERY_SUCCEEDED, STOPPED or ESCALATED are discarded without a call, a policy objection ends the case if the table allows it, and only the rest proceeds |
| ExecutionService.SafeRecoveryExecutionService.Access | app/execution/service.py:622-624 | A database access raises exactly when the next given fault says so; otherwise it happens, and if it raises, the session ends with nothing committed and only the release is left |
| ExecutionService.SafeRecoveryExecutionService.Prepare | app/execution/service.py:336-373 | EXECUTING is entered, then the idempotency barrier passed; every refusal and every raising access leads to release without a provider call |
| ExecutionService.SafeRecoveryExecutionService.PassBarrier | app/execution/idempotency.py:56-102 | The quick check, then the reservation; it stops in front of either only for a duplicate, a raising access or a hopeless wait |
| ExecutionService.SafeRecoveryExecutionService.Finish | app/execution/service.py:622-624 | The lease is given back last, and the explanation of status and failure stays true of the whole attempt |
| ExecutionService.SafeRecoveryExecutionService.Reserve | app/execution/idempotency.py:70-102 | A competing insert waits for the other session; it ends reserved, refused, or failed |
| ExecutionService.SafeRecoveryExecutionService.LoadRows | app/execution/service.py:152-169 | Payment then case are read from the database; a missing row ends the attempt |
| ExecutionService.SafeRecoveryExecutionService.Proceed | app/execution/service.py:336-572 | An attempt that is neither discarded nor blocked ends in one of the listed sequences of moves, with the status that belongs to it: after an answer, the one the retry policy decides |
| ExecutionService.SafeRecoveryExecutionService.Settle | app/execution/service.py:385-572 | One call, one answer, and either one commit with the status the retry policy gives that answer, or a commit that raises and loses the session |
| TtlStore.Replay | app/execution/redis_client.py:10-138 | Over every command history with a monotone clock, the lazily evicting store replies exactly like a map that never evicts and filters by time |
| TtlStore.Execute | app/execution/redis_client.py:30-138 | One command on the store is one command on the pure map, in its reply and in what stays visible |
| TtlStore.SameForever | app/execution/redis_client.py:22-28 | Stores equal to an observer now are equal to every later observer: eviction is never noticed |
| TtlStore.PureStepRespectsSame | app/execution/redis_client.py:22-28 | Commands cannot tell apart stores that differ only in expired entries |
| TtlStore.CountDeletedIsSizeDrop | app/execution/redis_client.py:71-80 | The delete reply is the number of keys that disappear, a repeated name counted once |
| TtlStore.PttlReply | app/execution/redis_client.py:91-99 | -2 for a missing key, -1 without expiry, otherwise the whole milliseconds left |
| TtlStore.InMemoryRedisClient.IsExpired | app/execution/redis_client.py:22-28 | Evicts a key exactly when its time has come, and changes nothing an observer can see |
| TtlStore.InMemoryRedisClient.Set | app/execution/redis_client.py:30-62 | SET with NX/XX and expiry acts on the visible map only; px wins over ex |
| TtlStore.InMemoryRedisClient.Get | app/execution/redis_client.py:64-69 | Reads the visible value and changes nothing visible |
| TtlStore.InMemoryRedisClient.Delete | app/execution/redis_client.py:71-80 | Removes exactly the visible keys named and counts them |
| TtlStore.InMemoryRedisClient.Exists | app/execution/redis_client.py:82-89 | Counts names of visible keys, changes nothing visible |
| TtlStore.InMemoryRedisClient.Pttl | app/execution/redis_client.py:91-99 | Answers from the visible map, with the second clock reading |
| TtlStore.InMemoryRedisClient.EvalRelease | app/execution/redis_client.py:101-132 | Compare-and-delete: removes the key exactly when it visibly holds the token |
| DistributedLock.LeaseIsExclusive | app/execution/lock.py:24-32 | For its whole life a lease defeats every other acquisition and every foreign release, over any sequence of attempts |
| DistributedLock.LeaseSurvives | app/execution/lock.py:78-103 | A late or foreign release never removes another owner's live lease |
| DistributedLock.ExpiredLeaseIsFree | app/execution/lock.py:28-30 | A lease can be taken over exactly once its time has passed |
| DistributedLock.LockKeyInjective | app/execution/lock.py:47-58 | Different payments never share a lock key |
| DistributedLock.TokensDiffer | app/execution/lock.py:39-58 | Owner tokens with different random parts differ, whatever the workers are called |
| DistributedLock.RedisDistributedLock.Acquire | app/execution/lock.py:60-76 | Succeeds exactly when no live lease is on the key, and then holds one until the TTL |
| DistributedLock.RedisDistributedLock.Release | app/execution/lock.py:78-103 | Reports and deletes exactly its own live lease |
| DistributedLock.RedisDistributedLock.IsLocked | app/execution/lock.py:105-108 | True exactly when an acquisition would fail |
| DistributedLock.RedisDistributedLock.IsOwned | app/execution/lock.py:110-113 | True exactly when the key visibly holds this token |
| Idempotency.KeyInjective | app/execution/idempotency.py:35-38 | Two recovery actions share a key exactly when they are the same attempt of the same case, whatever the case ids contain |
| StateMachine.ExecutionNeedsApproval | app/orchestrator/state_machine.py:22-62 | Every walk from FAILED to EXECUTING passes APPROVED |
| StateMachine.TerminalIffNoWayOut | app/orchestrator/state_machine.py:59-61 | The terminal states are exactly those no walk leaves |
| RetryPolicy.EvaluateMeans | app/execution/retry_policy.py:48-96 | For every input: which of the three conditions stops, in their order, with the code's own table of retryable codes, and otherwise the doubled backoff or the cap, whichever is smaller |
| RetryPolicy.ChainShape | app/execution/retry_policy.py:48-96 | An executor chain schedules one retry per leading retryable failure up to the limit, each after the capped power of two |
| RetryPolicy.ChainAsksThePolicy | app/execution/service.py:488-493 | Each link of such a chain is the executor's own decision about the error code at hand |
| RetryPolicy.ChainStaysWithinLimit | app/execution/service.py:485-537 | Every retry requested by an executor chain has an attempt number within the merchant's limit |
| RetryPolicy.ChainDelayBound | app/execution/retry_policy.py:48-58 | A chain from attempt a waits at most base·2^(max-1) - base·2^(a-1), and at most cap·(max-a), in all |
| RetryPolicy.DoubledIsPower | app/execution/retry_policy.py:57-58 | The doublings that bound is written in are base·2^n |
| RetryPolicy.RepeatedIsProduct | app/execution/retry_policy.py:57-58 | The repeated sums it is written in are cap·n |
| ErrorCodes.NormalizeMeans | app/execution/retry_policy.py:60-67 | Normalising cuts all blanks off both ends, capitalises the small letters left, and changes nothing else |
| ErrorCodes.PaddingIsIgnored | app/execution/retry_policy.py:60-67 | Blanks around an error code, all that Python strips, do not change its treatment |
| ErrorCodes.CaseIsIgnored | app/execution/retry_policy.py:60-67 | Neither does the case of its letters, so stripping before or after upper-casing is the same |
| Policy.Evaluate | app/policy/engine.py:57-147 | The early-exit loop decides as if every rule had been asked; it reports the first denial, or the last request for approval, and the rules it saw |
| Policy.JoinMeans | app/policy/engine.py:79-147 | Denied iff some rule denies; permitted iff every rule permits |
| Policy.MoreRulesAreStricter | app/policy/engine.py:79-147 | Adding rules never makes a decision more permissive |
| Policy.OrderDoesNotMatter | app/policy/engine.py:79-147 | No permutation or repetition of the rules changes the decision |
| Policy.DefaultRulesDecide | app/policy/rules.py:44-380 | The ten rules together, from the context's fields alone: denied unless all is in order, then held for a human exactly for high values, otherwise permitted |
| Policy.FirstDenialAt | app/policy/engine.py:93-109 | The reported reason is that of the first denying rule |
| Guard.PassedGuards | app/orchestrator/guard.py:44-165 | The number returned is the position of the first guard that objects, every earlier one being content |
| Guard.GuardsPassIff | app/orchestrator/guard.py:44-165 | From the context's fields alone: when all seven guards pass |
| Guard.Evaluate | app/orchestrator/guard.py:29-176 | Approved exactly when none of the seven guards objects; otherwise the first objection alone decides stop or escalation, reason and report |
| Orchestrator.RetryIff | app/orchestrator/orchestrator.py:133-311 | For every plan and store: a retry is requested exactly when the payment's and the merchant's rows (without a row, the event's copy and the defaults) permit one: merchant, attempt, amount, rail, cause, time, case and payment, each written out |
| Orchestrator.EmitsRetryIffApproved | app/orchestrator/orchestrator.py:385-455 | A retry event is published exactly by an approved run with a retry strategy |
| Orchestrator.RetryStaysWithinLimit | app/orchestrator/orchestrator.py:446-449 | Every retry the orchestrator requests is the next attempt of this payment's case, within the limit of its merchant's row, on the plan's route if it names one, under any rule list |
| Orchestrator.EndedStaysEnded | app/policy/rules.py:80-121 | Once a case is stopped or escalated, or the payment terminal, no later series of runs, with any plans, approves it or requests a retry |
| Orchestrator.LockedIsNotApproved | app/policy/rules.py:80-121 | The terminal-workflow rule alone keeps such a payment from approval in any rule list that contains it |
| Orchestrator.RefusalLocks | app/orchestrator/orchestrator.py:167-284 | A run that does not approve ends the case; one that approves leaves it open |
| Orchestrator.RecoveryStateAloneLocksNothing | app/orchestrator/orchestrator.py:105-107 | The stored recovery_state has no influence on decision, events or resulting case |
| Orchestrator.IntelligentRecoveryOrchestrator.OrchestrateFailure | app/orchestrator/orchestrator.py:72-313 | One commit then events: the case, the store and the outbox are those of the decision, with the ten rules a retry is among the events exactly under the facts of RetryIff, and no transition the method asks for is ever refused |
| Orchestrator.IntelligentRecoveryOrchestrator.GatherContext | app/orchestrator/orchestrator.py:323-381 | The stored payment wins over the event's copy, the stored merchant over the defaults |
| Orchestrator.IntelligentRecoveryOrchestrator.Authorize | app/orchestrator/orchestrator.py:219-311 | Once the guards have passed, the policy decision alone determines case, store and events |
| Orchestrator.IntelligentRecoveryOrchestrator.EmitApproved | app/orchestrator/orchestrator.py:385-455 | Started, notification, and for retry strategies the retry request, in that order |
| AuditChain.TamperEvident | app/audit/service.py:191-233 | Two chains that verify and end in one hash have equal length and agree record by record on everything hashed, or they exhibit two texts with one digest; the JSON text need only tell the records of the two chains apart |
| AuditChain.HashedMeans | app/audit/service.py:120-137 | What "everything hashed" is: all fields, the two lists up to order, but neither escalation reason nor evidence |
| AuditChain.SeedInjective | app/audit/service.py:73-76 | The text that is hashed determines payload and parent |
| AuditChain.OrderedRunsVerify | app/audit/service.py:109-164 | Any interleaving of flushed appends whose timestamps (and at one time, ids) increase payment by payment leaves every payment's chain verifiable |
| AuditChain.AppendVerifiesIff | app/audit/service.py:109-117 | An append keeps a chain verifiable exactly when none of the payment's records is later, or at the same time with a greater id: the descending latest query must agree with the ascending replay |
| AuditChain.UnflushedAppendsBreak | app/audit/service.py:166-171 | Two appends without a flush between them take one parent and, in either order, leave a chain that does not verify |
| AuditChain.ChainIsChronological | app/audit/service.py:183-189 | A payment's chain is its own records, each as often as the table has it, in the order of their timestamps and then of their ids |
| AuditChain.LatestMeans | app/audit/service.py:109-117 | The hash an append links to is that of the payment's last record by timestamp and id, and none exactly if it has no record |
| AuditChain.GlobalReplayIff | app/audit/service.py:183-189 | Where every payment's chain is intact, replaying the whole table as one chain is accepted exactly when it holds at most one payment |
| AuditChain.GlobalReplayRejects | app/audit/service.py:183-189 | Replaying two intact payments as one chain is rejected |
| AuditChain.NoErrorsIffIntact | app/audit/service.py:191-233 | The error list is empty exactly when every link and every hash is right |
| AuditChain.ChainSnoc | app/audit/service.py:183-189 | A new record enters its own payment's chain at its place and no other chain |
| AuditChain.AuditLog.AppendRecord | app/audit/service.py:82-171 | The record is chained to the latest visible one of its payment, by timestamp and id, and becomes visible at the next flush |
| AuditChain.AuditLog.VerifyChainIntegrity | app/audit/service.py:173-233 | Valid exactly when the replay of the payment's records, by timestamp and then id, is intact, with all errors in replay order |
| TextOrder.StrLeMeans | app/audit/service.py:183-189 | The order of texts is dictionary order: decided at the first difference, a prefix first |
| TextOrder.SortForgetsOnlyOrder | app/audit/service.py:131-133 | Sorting two lists gives the same text list exactly when they hold the same elements as often |
| CircuitBreakers.TrippedIff | app/ai/instances.py:76-90 | Over any history the breaker is away from CLOSED exactly when the trailing run of failures has reached the threshold |
| CircuitBreakers.TrippedIffNeedsThreshold | app/ai/instances.py:33-44 | That reading holds for all histories exactly for thresholds of at least one |
| CircuitBreakers.PermittedIff | app/ai/instances.py:46-65 | A call is permitted exactly when that run is below the threshold or the latest failure is at least the cooldown ago |
| CircuitBreakers.CountersMeanHistory | app/ai/instances.py:67-80 | Counter and failure clock say what the history says |
| CircuitBreakers.HalfOpenHasCooled | app/ai/instances.py:53-59 | HALF_OPEN is never seen before the cooldown has passed |
| CircuitBreakers.CircuitBreaker.CanExecute | app/ai/instances.py:46-65 | Answers for the whole recorded history, and only opens the way to HALF_OPEN |
| CircuitBreakers.CircuitBreaker.RecordSuccess | app/ai/instances.py:67-74 | The object keeps representing its history after a success |
| CircuitBreakers.CircuitBreaker.RecordFailure | app/ai/instances.py:76-90 | The object keeps representing its history after a failure |
| ModelInstances.Accounting | app/ai/instances.py:176-236 | Over any interleaving of requests: active = in flight (the clamp at zero never fires), total = successful + failed + cancelled + in flight, tokens = estimate × successes |
| ModelInstances.ModelServiceInstance.GenerateRecommendation | app/ai/instances.py:163-236 | Answers exactly when permitted and the provider answers; then the breaker is CLOSED, from whatever state, and health follows the latency; a failing probe reopens it, a failure in CLOSED opens it at the threshold; a refusal changes nothing; nothing stays in flight |
| ModelInstances.ModelServiceInstance.Begin | app/ai/instances.py:170-179 | A request starts exactly when the breaker permits |
| ModelInstances.ModelServiceInstance.EndWithAnswer | app/ai/instances.py:195-216 | A success closes the breaker, sets health by latency and keeps the books |
| ModelInstances.ModelServiceInstance.EndWithError | app/ai/instances.py:220-236 | A failure advances the breaker, and health is UNHEALTHY exactly when that opened it |
| ModelInstances.ModelServiceInstance.EndCancelled | app/ai/instances.py:234-236 | A cancellation only ends the request: neither breaker nor health changes |
| LoadBalancers.L7ModelLoadBalancer.Dispatch | app/ai/load_balancer.py:100-158 | Failover completeness: if some available instance would answer and shares its id with none that would fail, and at most the permitted number of retries of the available ones would fail, a response is returned. With every instance unhealthy or behind an open breaker, the first whose breaker has cooled down gets the call and its answer is the response; while none has, there is no response. If all go by one id and the least loaded fails, there is none either; any response comes from an instance of the pool that answers |
| LoadBalancers.L7ModelLoadBalancer.AttemptOnce | app/ai/load_balancer.py:121-143 | An attempt goes to an untried available instance while there is one, succeeds exactly if that one answers, and changes the availability of no other; with nobody available a first attempt gets the canary's answer |
| LoadBalancers.DistinctIdsUnmask | app/ai/load_balancer.py:122-129 | With distinct ids, any available instance that would answer keeps the promise |
| LoadBalancers.OneNameMasks | app/ai/load_balancer.py:47-57 | Two instances registered under one id, the first failing, the second able to answer: dispatch gives no response |
| LoadBalancers.MayTryMeans | app/ai/instances.py:46-65 | A breaker lets a call through exactly when its trailing failures are below the threshold or its latest one is at least the cooldown ago |
| LoadBalancers.L7ModelLoadBalancer.SelectInstance | app/ai/load_balancer.py:64-98 | With someone available: round robin takes the indexed one and advances, least connections a minimum; with nobody, the first instance whose breaker permits a probe, and none exactly when no breaker does |
| LoadBalancers.L7ModelLoadBalancer.LeastLoaded | app/ai/load_balancer.py:92-95 | The first instance with the fewest active requests |
| LoadBalancers.L7ModelLoadBalancer.FindProbe | app/ai/load_balancer.py:72-83 | The first instance whose breaker permits a call, and none exactly when no breaker in the pool does |
| LoadBalancers.L7ModelLoadBalancer.PreferUntried | app/ai/load_balancer.py:125-129 | While an untried instance is available, the instance taken is untried |
| LoadBalancers.L7ModelLoadBalancer.Choose | app/ai/load_balancer.py:121-131 | Each attempt goes to an untried available instance while there is one; with nobody available the first goes to the first instance whose breaker lets a call through, and none is chosen exactly when no breaker does |
| LoadBalancers.L7ModelLoadBalancer.RegisterInstance | app/ai/load_balancer.py:47-57 | The instance joins the end of its tier's pool, other pools unchanged |
| LoadBalancers.GoodOneLeft | app/ai/load_balancer.py:121-143 | While only failing instances have been tried, one that would answer, and whose id no failing one shares, is still untried and available |
| BrokerDelivery.ExactlyOnceInOrder | app/events/broker.py:90-148 | Over any history of calls, bodies delivered to a registered group followed by those waiting are exactly the bodies published, in order, however late the group registered; offsets strictly increase |
| BrokerDelivery.WellServedIffPlain | app/events/broker.py:95-95 | In all histories a group gets exactly what was published to its topic, in order, if and only if neither name contains a colon |
| BrokerDelivery.NeverAgain | app/events/broker.py:141-148 | A message handed to a group is not handed to it again by any continuation |
| BrokerDelivery.LogIsHistory | app/events/broker.py:117-131 | A topic's log is what was published to it, with strictly increasing offsets |
| BrokerDelivery.RunFaithful | app/events/broker.py:90-148 | Delivered plus queued is the log after every call; an unregistered group has neither |
| BrokerDelivery.PlainNamesAreAlone | app/events/broker.py:95-95 | A topic and group without colons never share their queue, whatever other names are used |
| BrokerDelivery.SharedQueueMisdelivers | app/events/broker.py:136-139 | Whenever two topics' groups do share a queue name, a publication reaches a group of the other topic |
| Broker.InMemoryEventBroker.RegisterConsumerGroup | app/events/broker.py:90-101 | A new group is given the whole log; a registered one is left alone |
| Broker.InMemoryEventBroker.CatchUp | app/events/broker.py:98-101 | Earlier messages are appended to the queue in log order |
| Broker.InMemoryEventBroker.Publish | app/events/broker.py:103-139 | One numbered entry in the log and one copy for each registered group, nothing else |
| Broker.InMemoryEventBroker.Deliver | app/events/broker.py:133-139 | Each listed group's queue gains the message once, in whatever order the set is iterated |
| Broker.InMemoryEventBroker.GetMessage | app/events/broker.py:141-148 | Polling registers the group and hands over the head of its queue, or nothing |
| Broker.InMemoryEventBroker.Commit | app/events/broker.py:150-152 | Only the group's committed offset for the message's topic changes |
| Broker.RegisterServes | app/events/broker.py:93-97 | Every registered group has a queue |
| RetryProcessor.RetryLinesDrain | app/events/retry_processor.py:79-119 | A whole run, with others acting at every await: both retry lines drain, each gaining what others publish to it meanwhile, the count is the number released, and the main topic gains what the two passes add; undisturbed, exactly what was released, in order and tagged |
| RetryProcessor.PassDrains | app/events/retry_processor.py:93-117 | One topic's pass on the broker is the drain of its waiting line, whatever others do at its awaits |
| RetryProcessor.PassKeepsOthers | app/events/retry_processor.py:93-117 | A pass touches no other waiting line of the group, dead letters included: it only gains what others publish to it meanwhile |
| RetryProcessor.DrainShape | app/events/retry_processor.py:93-117 | What is released is a prefix of what the line held or got, all due; the pass ends for enough polls, an empty line, or one body not yet due, which alone changes place and ends behind all that was there before its poll |
| RetryProcessor.DrainConserves | app/events/retry_processor.py:106-117 | Nothing is lost, duplicated or altered, and nothing leaves before its time |
| RetryProcessor.AddedConserves | app/events/retry_processor.py:106-117 | What a pass adds to the main log is one tagged copy of every released body and what others publish there meanwhile, no more |
| RetryProcessor.NothingElseIsAdded | app/events/retry_processor.py:106-117 | Every body a pass adds that others did not publish is a released one with its key, value, retry count and retry time, its headers plus the one naming the retry topic |
| RetryProcessor.QuietPass | app/events/retry_processor.py:93-117 | If nobody interferes, that is the released bodies in order |
| RetryProcessor.CyclesConserve | app/events/retry_processor.py:79-119 | Over any series of cycles with any clock and any arrivals between them and at their awaits: released plus waiting = there before plus arrived |
| RetryProcessor.DueIsReleased | app/events/retry_processor.py:93-117 | A due body at position p is released within p + 1 cycles, whatever arrives meanwhile |
| RetryProcessor.RetryIsPunctual | app/events/retry_processor.py:79-119 | End to end on the broker: a message at position p of a retry topic, due at the next p + 1 runs, reaches the main topic's log by the end of them with its key, value and headers plus the one naming the retry topic, as does every equal one before it, whatever others publish, poll, register or commit between the runs and at every await within them |
| RetryProcessor.RoundsDrain | app/events/retry_processor.py:79-119 | Over any number of runs with any calls by others between them and at their awaits, each retry topic's waiting line is what the cycles leave of it |
| RetryProcessor.RoundsAdd | app/events/retry_processor.py:93-117 | Over the same runs, every copy the cycles released is added to the main log |
| RetryProcessor.OthersOnlyAppend | app/events/broker.py:90-152 | No call by anyone but the processor's own group can remove, reorder or alter its waiting messages |
| RetryProcessor.PublishJoinsTheLine | app/events/retry_processor.py:48-68 | A routed message joins the end of its topic's waiting line, registered or not, and no other line |
| RetryProcessor.DelayIsKept | app/events/retry_processor.py:48-68 | A routed message keeps key and value and becomes due exactly when its delay has passed |
| RetryProcessor.RoutedMeans | app/events/retry_processor.py:23-77 | What is published where, header by header, for every message and failure |
| RetryProcessor.AtMostTwoRetries | app/events/retry_processor.py:48-77 | Whatever its headers and its failures, a message is retried at most twice and not after its burial |
| RetryProcessor.JourneyIsExact | app/events/retry_processor.py:48-77 | A message that parses visits exactly the stations its retry count leaves it, one for each failure |
| RetryProcessor.ThirdFailureBuries | app/events/retry_processor.py:48-77 | A fresh message failing three times visits retry 1, retry 2 and the dead-letter topic in turn |
| RetryProcessor.RouteFailure | app/events/retry_processor.py:23-77 | Malformed goes to the dead letters, otherwise the retry count decides; an unreadable count raises and publishes nothing |
| RetryProcessor.ReleaseFrom | app/events/retry_processor.py:94-117 | The inner loop is the pass over its topic, others acting before the poll, before the republication and before the commit |
| RetryProcessor.ProcessRetries | app/events/retry_processor.py:79-119 | Retry 1 is passed over before retry 2, with one clock reading, others acting at every await of both |
| ConsumerProtocol.OncePerEvent | app/consumers/notification_consumer.py:64-115 | Any sessions, any redelivery, any crashes: per event at most one notification and one committed orchestration, each present exactly when its processed_events row is; offsets only after the commit |
| ConsumerProtocol.RunKeepsInv | app/consumers/recovery_consumer.py:71-105 | Every step of every session keeps that, and the right to publish an orchestration's events stays with one session |
| ConsumerProtocol.NotificationCompletes | app/consumers/notification_consumer.py:64-115 | One undisturbed redelivery completes a notification if its id is free or its row is there, and otherwise fails without a trace |
| ConsumerProtocol.TakenIdBlocksForever | app/models/notification.py:34-42 | If another event holds the notification id, no run ever processes the event |
| ConsumerProtocol.RecoveryCompletes | app/consumers/recovery_consumer.py:71-105 | One undisturbed redelivery completes an orchestration once nobody holds its uncommitted row; if the orchestrator raises, nothing is left behind |
| ConsumerProtocol.UnheardIffSilenced | app/orchestrator/orchestrator.py:310-311 | In every run a committed orchestration is unpublished with nobody left to publish it exactly when its session died between commit and publication; otherwise it is published once, or its session is about to |
| ConsumerProtocol.UnheardForever | app/consumers/recovery_consumer.py:82-87 | An orchestration committed by a session that died before publishing is never published |
| ConsumerProtocol.CrashAfterCommitSilences | app/orchestrator/orchestrator.py:310-311 | Such a session exists from a fresh start |
| Consumers.NextRelevant | app/consumers/notification_consumer.py:41-53 | The loop stops at the first event of its own type or the first that is no JSON; everything passed over is of another type and is committed |
| Consumers.LeadUnfolds | app/consumers/notification_consumer.py:41-53 | What is passed over, event by event: JSON of any type but the consumer's own |
| Consumers.SkippedLine | app/consumers/notification_consumer.py:51-53 | Passing over k messages removes exactly those and commits the offset of the last |
| Consumers.NotificationConsumer.ProcessNext | app/consumers/notification_consumer.py:35-62 | Broker, tables, result and polled message are those of one consumption: it raises exactly when the event does not parse or its row is absent and its notification id taken, then leaves tables and offset alone, and commits the offset of a handled event only with its row in the table |
| Consumers.NotificationConsumer.HandleNotificationRequested | app/consumers/notification_consumer.py:64-115 | Row and notification appear together or not at all |
| Consumers.RecoveryConsumer.ProcessNext | app/consumers/recovery_consumer.py:41-69 | The same for payment failures: it raises exactly when the event does not parse or its row is absent and the orchestration raises; exactly one orchestration of the event for a newly handled one and none otherwise |
| Consumers.RecoveryConsumer.HandlePaymentFailed | app/consumers/recovery_consumer.py:71-105 | Row and orchestration come together: one run of the orchestrator on the event for a new row, none for a duplicate or when the orchestration raises before its commit |
| MessageLoss.LostIffRejected | app/consumers/notification_consumer.py:41-62 | In every history in which commits name what was handed over: the message a consumer polls next is afterwards neither waiting nor acknowledged exactly when it does not parse or its handler raises |
| MessageLoss.NotificationLostIff | app/consumers/notification_consumer.py:54-115 | For notifications, exactly when it does not parse, or its row is absent and its notification id taken |
| MessageLoss.RecoveryLostIff | app/consumers/recovery_consumer.py:60-105 | For payment failures, exactly when it does not parse, or its row is absent and the orchestration raises |
| MessageLoss.LostForGood | app/events/broker.py:141-148 | No continuation of the history hands a lost message over again or has it waiting |
| MessageLoss.MalformedIsLost | app/consumers/notification_consumer.py:41-46 | One publication that is no JSON and one poll: lost |
| MessageLoss.ConsumingIsHonest | app/consumers/notification_consumer.py:51-62 | What a consumer does keeps every history one in which commits name what was handed over, for its own group and any other |
| Consumers.NotificationHandlerIsARun | app/consumers/notification_consumer.py:64-115 | The handler does to the tables what its session's steps do in the concurrent protocol, the failing commit on a taken id included |
| Consumers.RecoveryHandlerIsARun | app/consumers/recovery_consumer.py:71-105 | The same for the recovery handler, whether the orchestration completes or raises |

## Left out

- Exactly-once charging across a crash between the provider call and the commit: the code does not give it; the
  exact count is `ExecutionAccounting.CallsAreAccountedFor`.
- ExecutionWorkflow.CommitsFollowTheTable: assumes commits within the lease and no other writer of a case under
  execution, which the source does not enforce; the exact condition without them is
  `ExecutionWorkflow.CommitFollowsIff`.
- Row locks of the database: two sessions may read and later write one row, so more interleavings are allowed than
  a real database has. Only the unique keys block, as in the code.
- SQLAlchemy, Alembic, PostgreSQL, Kafka and real Redis: an abstract transaction store, the in-memory broker and the
  in-memory TTL store stand for them. `flush` failures other than unique-key conflicts are session failures.
- Clocks, random ids, uuids, simulated provider faults and what providers, models and policies answer: arguments.
- Floating-point rounding and wall-clock latency: times, delays and latencies are reals, amounts are whole paise.
- ExecutionWorkflow.ExecutingIsNeverCommitted: other services may write any case row except one in EXECUTING, a state
  only the executor uses; one session per attempt, as in `app/execution/consumer.py:46`.
- ExecutionSafety.AtMostOneCharge: does not count other services' direct charges; `record_payment_failure`
  (`app/services/payment_service.py:108`) appears only as a write by another service.
- Audit appends inside the executor's and the orchestrator's transactions, the events the executor publishes after
  its commit, and the payment_failure row: they change nothing the protocol's theorems speak of. The re-validation
  policy of the executor is an arbitrary verdict.
- SHA-256 (section 6.2 of FIPS 180-4) and the JSON text: functions, the second telling apart the records at hand, the
  first only of the right shape. No collision-freeness is assumed. The model confidence is the text of its double.
- Audit listeners that refuse updates and deletes: `AuditLog` simply has no such operation.
- ErrorCodes.CaseIsIgnored: letters are ASCII only; Unicode upper-casing is not modelled.
- Rule and guard details: the reason is its leading code, the explanatory text and `details` dictionaries are left
  out; a payment method is always present. The classifier and the strategy selector only produce the plan, which is
  arbitrary.
- Orchestrator.IntelligentRecoveryOrchestrator.OrchestrateFailure: runs on one case are serial, as the code takes no
  lock there; route context and notification payloads are left out.
- LoadBalancers.L7ModelLoadBalancer.Dispatch: completeness is for a dispatch that nothing else interleaves with;
  interleaved requests are covered by `ModelInstances.Accounting`.
- ModelInstances.Accounting: a request suspends once, at the provider; cancellation while waiting for the metrics
  lock is not modelled, and the latency sums are left out.
- Broker.InMemoryEventBroker.GetMessage: a timeout is an empty queue; waiting for a later message is the next poll.
  The one-message-at-a-time asyncio lock makes each call one step.
- RetryProcessor.RouteFailure: header texts are parsed values; a naive timestamp, which the code's comparison would
  reject with an error, and a crash between republishing and committing are not modelled.
- ConsumerProtocol.UnheardIffSilenced: the several events an orchestration publishes after its commit are one step, so
  a crash between two of them, after which only the first ones are out, is not told apart.
- Consumers.RecoveryConsumer.HandlePaymentFailed: that a decision engine or the database raises before the commit is
  an input, and the rollback then is the database's; the events an orchestration publishes go to the orchestrator's
  own outbox, not back into the consumer's broker.
- ExecutionService.SafeRecoveryExecutionService.ExecuteRecoveryAttempt: the lock store itself does not raise, and the
  process does not die inside the method; `Crash` steps of the protocol cover the latter.
- Benchmark, dashboard, synthetic data, AI gateway and router, prompt handling, payment service, provider internals:
  reporting, text handling or foreign calls.
