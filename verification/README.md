# zima-control: durable mutations, runtime adapter, framing, cutover and readiness

A Dafny model of the parts of zima-control in which correctness spans several calls, processes or
implementations, with proofs over all inputs and all runs.

- **Durable mutations.** `MutationModel` states the repository as transactions over six tables: what each of the
  fourteen calls decides, and what a decision commits. `MutationInvariants` and `MutationCalls` prove that every
  disciplined call keeps one invariant; `MutationRuns` and `MutationTheorems` draw the protocol's safety properties
  from it for arbitrary runs. `MutationOrigins` follows every row, dispatch and replay back to the input of the claim
  behind it, and `MutationLaws` states what each granted call leaves behind for the rest of the run.
  `MutationScenarios` holds concrete runs showing which conditions cannot be dropped.
  `Repository` is the mutable class with its save-and-restore code, proved to commit exactly those decisions.
  `Aggregation` is the parent verdict over any number of children.
- **Clients of the repository.** `MutationClients` proves that other clients cannot disturb an operation under its
  lease. `StepRecovery`, `Orchestrator` and `GatewayService` are programs over the class, with other clients acting
  between any two of their calls and with any of their own audit writes failing. The two services take any clock
  readings; a recovery pass reads the clock once.
- **Runtime adapter.** `Resolver` (with `ReplicaLabels` and `Sequences`) is the target resolver; `Lifecycle` the
  START, STOP and RESTART handlers against an arbitrary Docker; `AdapterExclusion` the per-application mutex, one
  request under it, and every interleaving of requests.
- **Framing.** `Framing` is the codec and streaming decoder; `NativePeer` the resumable reader and writer in C.
- **Cutover.** `Cutover` is the two-database cutover as steps with crashes and concurrent writers, and as a program.
- **Readiness.** `Readiness` prints and parses the bytes of the records as TypeScript does; `ReadinessNative` writes
  and checks them as the C program does, including its `sscanf` format.

`dafny verify dfyconfig.toml` checks the whole project.

## Conventions

A call is *disciplined* when `transitionWithAudit` is used for operations without child steps only, and no
transition is asked to log a dispatch event. This is a condition on the callers, and one of them breaks it:
`MutationRecoveryService` (`packages/core/src/durable-mutation.ts:811-838`) calls `transitionWithAudit` for every
operation that `listRecoverable` returns, those with child steps included. `MutationTheorems.DisciplineIsNeeded`
shows that the condition is exact and `MutationScenarios.UndisciplinedRecovery` is a run of that service's calls.

A run is a sequence of calls, each with a flag saying whether one of its audit writes fails.

Another client's call is *admitted* in the two services when it acts for another operation, or for this one without
presenting its live lease. Two kinds of calls are not admitted, each with its exact condition. A recovery lease on the
service's own key, asked for once its lease has expired, takes the lock away (`MutationClients.TakenOverIff`). Between
a claim and its lease, a recovery pass can finish the claimed operation, and `acquireLease` then hands a fresh lock to
a finished operation (`MutationClients.LeaseToFinishedIff`, `MutationScenarios.RecoveryOvertakesClaim`). A recovery
pass runs among any disciplined calls.

## What the code does that its description does not say

- `claim` is the one state-changing call without rollback: when its audit write fails, the operation and the claim
  stay (`MutationTheorems.UnauditedClaim`), although the interface asks state and audit to change together.
- Recovery has its own table of allowed changes and may reject an EXECUTING step.
- A parent with a single CANCELLED child is FAILED (`Aggregation.SoleChild`).
- Two operations of one key can be EXECUTING at once after a recovery lease
  (`MutationScenarios.RecoveryBreaksExclusion`); without recovery leases they cannot.
- The orchestrator leaves an operation unfinished, with its lock, in exactly the cases of `Orchestrator.Remains`: one
  of its own writes fails, because of its audit write or because it comes after the lease expired; its executor or its
  verifier throws one of the protocol's own errors; or the executor reports an uncertain outcome although dispatch was
  never authorised.
- An executor that neither settles nor acknowledges in time may still get its dispatch authorised after the orchestrator
  looked for the mark. The step is then INDETERMINATE and dispatched, with its effect recorded as NOT_STARTED
  (`MutationScenarios.LateDispatch`); `Orchestrator.EffectIsRecorded` gives the exact condition.
- The gateway service guards none of its writes after the claim. One that fails leaves the operation unfinished and
  keeps every other operation from acquiring its key, also after the lease expired (`GatewayService.ClosedIff`,
  `GatewayService.LeftOpenBlocks`, `MutationScenarios.AuditFailureKeepsLock`).
- `acquireLease` does not look at the status of the operation it is asked for (`MutationClients.LeaseToFinishedIff`).
- Node's ascii decoding drops the high bit of each byte, so the two readers of a readiness record agree exactly on
  records without one (`ReadinessNative.ReadyReadersAgree`, `ReadinessNative.EpochReadersAgree`).
- The streaming decoder drops frames that arrive in the same chunk as a later oversize header
  (`Framing.LostFrames`).
- The status of a parent depends on child order when unfinished children differ (`Aggregation.StatusOrderFreeIff`).

## Model

| member | source | states |
|---|---|---|
| `MutationRuns.ReachableInv` | packages/core/src/in-memory-durable-mutation-repository.ts:33-352 | in every state reachable by disciplined calls, audit failures included, the whole protocol invariant holds: tables, lock tokens, quarantine, parents, dispatch marks, logs and status paths |
| `MutationRuns.QuarantineHolds` | packages/core/src/in-memory-durable-mutation-repository.ts:167-324 | an INDETERMINATE operation owns the lock of its key, and still does in every later state |
| `MutationRuns.OneIndeterminatePerKey` | packages/core/src/in-memory-durable-mutation-repository.ts:167-324 | two INDETERMINATE operations of one key are the same operation |
| `MutationRuns.QuarantineIsForever` | packages/core/src/in-memory-durable-mutation-repository.ts:214-324 | after a key is quarantined no later lease request for it is granted and no dispatch under it is authorised; such calls change nothing |
| `MutationRuns.RunEvolves` | packages/core/src/in-memory-durable-mutation-repository.ts:33-352 | between any two states of a run finished rows are frozen, dispatch marks and effects are never taken back, fences never fall and logs only grow |
| `MutationRuns.LockTokenIsNewest` | packages/core/src/in-memory-durable-mutation-repository.ts:282-324 | a present lock's token is the key's fence, which is at least every earlier value of it |
| `MutationRuns.FencedOff` | packages/core/src/in-memory-durable-mutation-repository.ts:135-346 | once a newer token exists for a key, a call presenting an older one leaves the whole state unchanged |
| `MutationRuns.DispatchIsOneShot` | packages/core/src/in-memory-durable-mutation-repository.ts:135-148 | one step or step-less operation is never dispatch-authorised twice in a run |
| `MutationRuns.DispatchTokensIncrease` | packages/core/src/in-memory-durable-mutation-repository.ts:214-246 | successive dispatches under one key carry strictly increasing tokens |
| `MutationRuns.DispatchMarkMatchesLog` | packages/core/src/in-memory-durable-mutation-repository.ts:135-148 | a step has a dispatch mark exactly when its log holds a dispatch event about it |
| `MutationTheorems.RecoveryRefusesOnly` | packages/core/src/in-memory-durable-mutation-repository.ts:191-212 | under a valid lease the only unfinished step recovery refuses is an undispatched VERIFYING one, and it does refuse that one |
| `MutationTheorems.RecoveryVerdictSound` | packages/core/src/in-memory-durable-mutation-repository.ts:191-212 | a step recovered as REJECTED was never dispatched and never will be; one recovered as INDETERMINATE was dispatched |
| `MutationTheorems.StepFrozen` | packages/core/src/in-memory-durable-mutation-repository.ts:150-212 | a finished step is the same row in every later state |
| `MutationTheorems.EffectImpliesDispatch` | packages/core/src/durable-mutation.ts:340-346 | an effect other than NOT_STARTED implies a dispatch mark; neither is ever taken back |
| `MutationTheorems.ActiveOwnsLock` | packages/core/src/in-memory-durable-mutation-repository.ts:248-298 | without recovery leases every EXECUTING or VERIFYING operation owns the lock of its key, expired or not |
| `MutationTheorems.ExclusionWithoutRecovery` | packages/core/src/in-memory-durable-mutation-repository.ts:248-324 | without recovery leases at most one operation per key is EXECUTING or VERIFYING |
| `MutationTheorems.ParentIsAggregate` | packages/core/src/durable-mutation.ts:354-373 | in every reachable state a parent's status, verification, recovery, effect and reason are the aggregate of its steps |
| `MutationTheorems.OpenEffectMeansIndeterminate` | packages/core/src/durable-mutation.ts:348-352 | if step transitions are only asked for unfinished statuses, a finished step with a possibly active effect is INDETERMINATE |
| `MutationTheorems.AuditFailureAtomicIff` | packages/core/src/in-memory-durable-mutation-repository.ts:33-280 | a failing audit write leaves the state unchanged exactly when the call is not a creating `claim` |
| `MutationTheorems.UnauditedClaim` | packages/core/src/in-memory-durable-mutation-repository.ts:33-58 | the `claim` whose audit write fails has created its operation without any event |
| `MutationTheorems.LogIsNumberedAndKept` | packages/core/src/in-memory-durable-mutation-repository.ts:347-352 | events are numbered 1..n within their operation and stay where they are in every later state |
| `MutationTheorems.StepHistoryIsLegal` | packages/core/src/in-memory-durable-mutation-repository.ts:64-212 | a step's own events form a path of allowed status changes from VALIDATED to its current status |
| `MutationTheorems.ClaimWindow` | packages/core/src/in-memory-durable-mutation-repository.ts:33-121 | with time not moving back, a later `claim`, `claimParentWithStep` or `replayParentClaim` by the same actor and key inside the window replays the same operation or fails; it never creates one |
| `MutationTheorems.ClaimAnswer` | packages/core/src/in-memory-durable-mutation-repository.ts:33-113 | the answer of each of the three from the stored claim entry, exactly: a conflict for a different request, else the one operation of the window unless the audit write fails |
| `MutationTheorems.CreationOwnsItsSlot` | packages/core/src/in-memory-durable-mutation-repository.ts:33-97 | a creation records the claim under its own actor and key, so each window creates one operation |
| `MutationOrigins.OperationOrigin` | packages/core/src/in-memory-durable-mutation-repository.ts:33-97 | in every reachable state every operation goes back to one creating `claim` or `claimParentWithStep`, and still has its plan, fingerprint, deadline and creation time |
| `MutationOrigins.StepOrigin` | packages/core/src/in-memory-durable-mutation-repository.ts:64-97 | every step goes back to the `claimParentWithStep` that created it, and still has its target, evidence, deadline and creation time |
| `MutationOrigins.StepFitsOperation` | packages/core/src/in-memory-durable-mutation-repository.ts:64-97 | in every reachable state a step acts on the application, with the action and in the execution domain of its operation, whose key is that application's |
| `MutationOrigins.StepDispatchTarget` | packages/core/src/in-memory-durable-mutation-repository.ts:135-148 | a step dispatch that is authorised names, in every field, the target of the claim that created the step; the caller holds the unexpired lock with the operation's token, the step was EXECUTING and undispatched, and afterwards carries this time and token; only its mark and its log changed |
| `MutationOrigins.OtherTargetRefused` | packages/core/src/in-memory-durable-mutation-repository.ts:135-148 | asked for any other target than the creating claim's, a step is not dispatched and nothing changes |
| `MutationOrigins.OperationDispatchTarget` | packages/core/src/in-memory-durable-mutation-repository.ts:214-246 | the same for a dispatch asked for through the operation: without steps the request names the action, application, service, container and domain of the creating claim's plan, with a step those of its target |
| `MutationOrigins.RefusedDispatchChangesNothing` | packages/core/src/in-memory-durable-mutation-repository.ts:135-246 | a dispatch that is not authorised, of either kind, is answered with an error and leaves the whole state unchanged |
| `MutationOrigins.CreationAnswers` | packages/core/src/in-memory-durable-mutation-repository.ts:33-121 | after a creation, until the end of the window in its own input, every claim, parent claim or replay by the same actor and key is answered with that operation for the same fingerprint and with a conflict for another, unless the audit write fails; none creates anything |
| `MutationOrigins.WindowEnds` | packages/core/src/in-memory-durable-mutation-repository.ts:33-97 | the next claim by the same actor and key at or after that end, with fresh ids, creates a new operation |
| `MutationLaws.OnlyLiveOwnerActs` | packages/core/src/in-memory-durable-mutation-repository.ts:135-324 | a call that presents a lease changes something only if that is the unexpired lock of its key, held for the operation it acts for; only `releaseLease` may come late |
| `MutationLaws.FinalizationSticks` | packages/core/src/in-memory-durable-mutation-repository.ts:167-189 | a finalised step has the verdict and time it was given, and its operation the aggregate, in every later state; its status was an expected one; the key is given up unless the outcome is INDETERMINATE |
| `MutationLaws.RejectionSticks` | packages/core/src/in-memory-durable-mutation-repository.ts:123-133 | rejecting as unowned succeeds only for a VALIDATED operation without token and lock, and leaves it REJECTED with that reason and time for good, with all locks as they were |
| `MutationLaws.RecoverySticks` | packages/core/src/in-memory-durable-mutation-repository.ts:191-212 | a recovered step has, in every later state, the full verdict its dispatch mark called for; only an uncertain one keeps its key |
| `MutationLaws.StepMovesAsAsked` | packages/core/src/in-memory-durable-mutation-repository.ts:150-165 | an accepted step transition left an expected status, changes exactly the fields it names, makes its parent the aggregate, and leaves all other rows, locks and claims |
| `MutationLaws.OperationMovesAsAsked` | packages/core/src/in-memory-durable-mutation-repository.ts:248-280 | the same for an operation's own transition; the key is given up exactly when it finishes the operation and asks for that |
| `MutationLaws.LeaseGrantedIff` | packages/core/src/in-memory-durable-mutation-repository.ts:282-298 | a lease is granted exactly to an operation of an unquarantined key whose lock is free, held by a finished operation, or already its own and unexpired; a new lock is as asked for with the next token, its own is returned unchanged |
| `MutationLaws.RecoveryLeaseGrantedIff` | packages/core/src/in-memory-durable-mutation-repository.ts:299-310 | a recovery lease is granted exactly to an unfinished operation of a key that is neither quarantined nor under an unexpired lock |
| `MutationLaws.LeaseRenewedIff` | packages/core/src/in-memory-durable-mutation-repository.ts:312-316 | a lease is prolonged exactly while it is the unexpired lock of its key; holder, token and start stay |
| `MutationLaws.LeaseReleasedIff` | packages/core/src/in-memory-durable-mutation-repository.ts:318-324 | a lease is given back exactly when it is the lock of its key, its operation is finished and the key is not quarantined |
| `MutationLaws.EventsAreTrue` | packages/core/src/in-memory-durable-mutation-repository.ts:347-352 | every event of a log was written by one call of the run, bears its time, names the plan of its operation or the target of its step, and gives the status that call left |
| `MutationLaws.SuccessWasVerified` | packages/core/src/in-memory-durable-mutation-repository.ts:64-189 | a SUCCEEDED step is on record as EXECUTING and, after that, as VERIFYING |
| `MutationTheorems.DisciplineIsNeeded` | packages/core/src/in-memory-durable-mutation-repository.ts:248-280 | a successful `transitionWithAudit` leaves parents agreeing with their steps exactly when the operation has no steps |
| `MutationScenarios.RecoveryBreaksExclusion` | packages/core/src/in-memory-durable-mutation-repository.ts:299-310 | a run with a recovery lease in which two operations of one key are EXECUTING at once |
| `MutationScenarios.RecoveryCanBeRefused` | packages/core/src/in-memory-durable-mutation-repository.ts:191-212 | a run that reaches an undispatched VERIFYING step, which recovery refuses |
| `MutationScenarios.FinalTransitionLeavesEffectOpen` | packages/core/src/in-memory-durable-mutation-repository.ts:150-165 | a run in which a final status asked of the step transition leaves a possibly active effect on a finished step |
| `MutationScenarios.UndisciplinedRecovery` | packages/core/src/durable-mutation.ts:811-838 | a run of `MutationRecoveryService` on an operation with a step, which ends with a REJECTED parent over a VALIDATED step |
| `MutationScenarios.RecoveryOvertakesClaim` | packages/core/src/in-memory-durable-mutation-repository.ts:282-310 | a run in which a recovery pass finishes a claimed operation before it asks for its lease, which it then gets |
| `MutationScenarios.LateDispatch` | packages/core/src/durable-mutation.ts:518-526 | a run in which dispatch is authorised after the orchestrator saw no mark and before its last write, and the quarantined step records that nothing started |
| `MutationScenarios.AuditFailureKeepsLock` | apps/api/src/mutation-service.ts:206-214 | a run in which the audit write of VALIDATED to EXECUTING fails: the operation stays VALIDATED with its lock, and no other operation gets the key at any time |
| `ClaimKeys.ClaimKeyInjective` | packages/core/src/in-memory-durable-mutation-repository.ts:355 | two claims share a key only if actor and idempotency key are both equal |
| `Aggregation.ParentFinishedIff` | packages/core/src/durable-mutation.ts:354-373 | the parent is finished exactly when some child is INDETERMINATE or all children are finished |
| `Aggregation.FinishedStatusMeans` | packages/core/src/durable-mutation.ts:354-373 | for finished children, what each final parent status says about them, both ways |
| `Aggregation.VerdictFromOneChild` | packages/core/src/durable-mutation.ts:354-373 | the parent takes status, verification, recovery and reason from the first of its weightiest children: INDETERMINATE, then unfinished, TIMED_OUT, FAILED, CANCELLED, REJECTED; CANCELLED, and REJECTED beside others, count as FAILED |
| `Aggregation.EffectIsMaximum` | packages/core/src/durable-mutation.ts:354-373 | the parent's effect is the greatest of the children's effects |
| `Aggregation.EffectOrderFree` | packages/core/src/durable-mutation.ts:354-373 | the effect does not depend on the order of the children |
| `Aggregation.StatusOrderFreeIff` | packages/core/src/durable-mutation.ts:354-373 | the status is independent of the order of the children exactly when some child is INDETERMINATE or the unfinished children agree; in particular when all are finished |
| `Aggregation.SoleChild` | packages/core/src/durable-mutation.ts:354-373 | with one child the aggregate is that child, with the exceptions for three final statuses |
| `Repository.MutationRepository.Append` | packages/core/src/in-memory-durable-mutation-repository.ts:347-352 | adds the next numbered event, or fails once when a failure was requested and adds nothing |
| `Repository.MutationRepository.Claim` | packages/core/src/in-memory-durable-mutation-repository.ts:33-58 | commits the decision of the transactional model |
| `Repository.MutationRepository.ClaimParentWithStep` | packages/core/src/in-memory-durable-mutation-repository.ts:64-97 | commits the decision of the model; after a failed audit write all tables are as before |
| `Repository.MutationRepository.ReplayParentClaim` | packages/core/src/in-memory-durable-mutation-repository.ts:105-113 | commits the decision of the model |
| `Repository.MutationRepository.RejectBeforeOwnership` | packages/core/src/in-memory-durable-mutation-repository.ts:123-133 | commits the decision of the model; after a failed audit write all tables are as before |
| `Repository.MutationRepository.AuthorizeStepDispatch` | packages/core/src/in-memory-durable-mutation-repository.ts:135-148 | commits the decision of the model, whose meaning is `MutationOrigins.StepDispatchTarget`; after a failed audit write all tables are as before |
| `Repository.MutationRepository.TransitionStepWithAudit` | packages/core/src/in-memory-durable-mutation-repository.ts:150-165 | commits the decision of the model; after a failed audit write all tables are as before |
| `Repository.MutationRepository.FinalizeStepAndParent` | packages/core/src/in-memory-durable-mutation-repository.ts:167-189 | commits the decision of the model; after a failed audit write all tables are as before |
| `Repository.MutationRepository.RecoverStepAndParent` | packages/core/src/in-memory-durable-mutation-repository.ts:191-212 | commits the decision of the model; after a failed audit write all tables are as before |
| `Repository.MutationRepository.AuthorizeDispatch` | packages/core/src/in-memory-durable-mutation-repository.ts:214-246 | commits the decision of the model, for operations with one child and without |
| `Repository.MutationRepository.TransitionWithAudit` | packages/core/src/in-memory-durable-mutation-repository.ts:248-280 | commits the decision of the model; after a failed audit write all tables are as before |
| `Repository.MutationRepository.AcquireLease` | packages/core/src/in-memory-durable-mutation-repository.ts:282-298 | commits the decision of the model: an unfinished owner keeps the key even after expiry |
| `Repository.MutationRepository.AcquireRecoveryLease` | packages/core/src/in-memory-durable-mutation-repository.ts:299-310 | commits the decision of the model: only an expired, unquarantined key is handed over |
| `Repository.MutationRepository.RenewLease` | packages/core/src/in-memory-durable-mutation-repository.ts:312-316 | commits the decision of the model; the token is unchanged |
| `Repository.MutationRepository.ReleaseLease` | packages/core/src/in-memory-durable-mutation-repository.ts:318-324 | commits the decision of the model; only a finished, unquarantined owner lets go |
| `Repository.MutationRepository.ListRecoverable` | packages/core/src/in-memory-durable-mutation-repository.ts:325-331 | lists exactly the recoverable operations, each once, oldest first and by id within one instant |
| `Repository.MutationRepository.AggregateFor` | packages/core/src/durable-mutation.ts:354-373 | the aggregate over the stored children of an operation is the verdict of its one step |
| `MutationClients.Serve` | packages/core/src/durable-mutation.ts:267-289 | any call served by the repository commits what the model decides, so every sequence of calls is a run of the model |
| `MutationClients.PowerlessCall` | packages/core/src/in-memory-durable-mutation-repository.ts:123-346 | while a lease is live, a call for its operation that does not present it (another lease, a recovery, a lease request, a rejection as unowned) is refused and changes nothing |
| `MutationClients.ForeignCall` | packages/core/src/in-memory-durable-mutation-repository.ts:33-346 | another client's call, for another operation or powerless for this one, leaves an unfinished operation's row, steps and locks unchanged; the one exception is a recovery lease on its key after its lease expired |
| `MutationClients.OtherClients` | packages/core/src/in-memory-durable-mutation-repository.ts:33-346 | the same for any sequence of other clients' calls, some of whose audit writes fail; the state afterwards is exactly what the admitted calls make of it |
| `MutationClients.TakenOverIff` | packages/core/src/in-memory-durable-mutation-repository.ts:299-310 | a recovery lease asked for by an unfinished operation of the key leaves the holder its lock exactly when the held lease has not expired |
| `MutationClients.LeaseToFinishedIff` | packages/core/src/in-memory-durable-mutation-repository.ts:282-298 | a finished operation is handed a fresh lock exactly when its key is free |
| `MutationClients.ServeAll` | packages/core/src/in-memory-durable-mutation-repository.ts:33-346 | any disciplined calls by anybody leave exactly what the model makes of them, keep the invariant, and undo nothing that is final |
| `StepRecovery.Recover` | packages/core/src/durable-mutation.ts:843-862 | among any calls of other clients, the turns of the pass follow one another over the recoverable operations in their order; at the end each candidate that had its turn is finished for good, or its turn shows why not: it had not one unfinished step, its key was locked, the recovery lease was lost, it was verifying undispatched, or the audit write failed; only the last reason ends the pass. With nobody else acting, each candidate before the end is finished or its key is locked, and the count is the number of steps the pass settled |
| `StepRecovery.StepAnswered` | packages/core/src/in-memory-durable-mutation-repository.ts:191-212 | whoever holds the key by now, recovering a step finishes its operation, or changes nothing because the lease was lost, the step is verifying undispatched or the audit write failed |
| `Orchestrator.WithDeadline` | packages/core/src/durable-mutation.ts:596-609 | work that settles does so by the deadline; a timeout is reported no later than the acknowledgement window after it |
| `Orchestrator.LeaseOutlivesWork` | packages/core/src/durable-mutation.ts:508-609 | whatever executor and verifier do, the last write comes within timeout, acknowledgement window and pauses; with pauses below the slack, before the lease expires |
| `Orchestrator.ConstructorBoundIsExact` | packages/core/src/durable-mutation.ts:466-472 | without pauses the last write comes before lease expiry for every executor and verifier exactly when the constructor accepts the timing |
| `Orchestrator.FinalizationDecides` | packages/core/src/in-memory-durable-mutation-repository.ts:167-189 | finalising under a lease succeeds exactly when the lease has not expired, the effect may be classified as asked and the audit write does not fail |
| `Orchestrator.FinishedBeforeExpiry` | packages/core/src/durable-mutation.ts:508-594 | whatever the pauses, an operation that is not left open is finished strictly before its lease expires |
| `Orchestrator.NothingIsLate` | packages/core/src/durable-mutation.ts:466-472 | with pauses below the slack the constructor leaves, the only writes under the lease that fail are those whose audit write does |
| `Orchestrator.Run` | packages/core/src/durable-mutation.ts:508-583 | with any pauses, failing writes and dispatch requests for step or operation, parent and step end with the start and completion times and the full verdict (status, verification, recovery, effect, reason) that executor, verifier and the dispatch mark seen determine, and without lock unless quarantined; or they stay unfinished with their lock in exactly the status given by what failed |
| `Orchestrator.FinalVerdictMeans` | packages/core/src/durable-mutation.ts:508-583 | what each stored field tells, both ways: SUCCEEDED exactly when executed and verified in time, TIMED_OUT only when never dispatched, FAILED after a dispatch only when safely declined or verified as failed; which answers lead to each verification, recovery, effect and reason |
| `Orchestrator.EffectIsRecorded` | packages/core/src/durable-mutation.ts:515-552 | a dispatched INDETERMINATE step without a completed execution records EFFECT_POSSIBLY_ACTIVE exactly when the dispatch was seen before the last write, which only a silent executor with a late dispatch escapes |
| `Orchestrator.Perform` | packages/core/src/durable-mutation.ts:476-583 | the same for a whole performance among other clients, for every answer of lookup, claim and lease, with the state each answer leaves; the lease is granted exactly when the key is free once the other clients have acted; a refused lease ends REJECTED, with the locks that the other clients alone leave |
| `Orchestrator.EndsIff` | packages/core/src/durable-mutation.ts:476-594 | a performance leaves its operation finished exactly when nothing remains open under its lease or, without one, its rejection was written |
| `GatewayService.Rejects` | packages/core/src/in-memory-durable-mutation-repository.ts:248-280 | rejecting an operation that was refused its lease succeeds unless its audit write fails, and touches no lock |
| `GatewayService.Advances` | packages/core/src/in-memory-durable-mutation-repository.ts:248-280 | a transition under the lease moves the operation on or closes it exactly when it comes before lease expiry and its audit write does not fail; otherwise nothing changes |
| `GatewayService.Perform` | apps/api/src/mutation-service.ts:142-301 | for every claim answer, any clock readings, any failing audit writes and among other clients, the reply and the stored verdict, reason, times and lock; when leased and no write fails, TIMED_OUT exactly for a timeout, FAILED exactly for another failure, with the gateway's reason, and SUCCEEDED exactly for a success, stored and answered alike; the lease is granted exactly when the key is free once the other clients have acted; past a created claim the operation ends finished and unlocked exactly when no write fails, and a refused lease leaves the locks that the other clients alone leave |
| `GatewayService.QuietLocks` | apps/api/src/mutation-service.ts:186-203 | with no other client at work, a claim that is refused its lease leaves the lock table as it found it |
| `GatewayService.ClosedIff` | apps/api/src/mutation-service.ts:186-301 | the service closes what it opened exactly when none of its writes after the claim fails or is late; otherwise a granted lock stays; SUCCEEDED only after a successful gateway reply under the lease |
| `GatewayService.LeftOpenBlocks` | packages/core/src/in-memory-durable-mutation-repository.ts:282-298 | an operation left open with its lock keeps every other operation from acquiring its key, also after the lease expired |
| `ReplicaLabels.AcceptedIff` | apps/runtime-adapter-daemon/src/resolver.ts:115-123 | a replica label is accepted as n exactly when, trimmed, it is the canonical numeral of n |
| `Resolver.GroupFaultIff` | apps/runtime-adapter-daemon/src/resolver.ts:98-185 | the checks on one service pass exactly when a lone container is unnumbered or canonical, and n > 1 containers carry exactly the numerals 1..n |
| `Resolver.FaultIff` | apps/runtime-adapter-daemon/src/resolver.ts:45-186 | all checks together pass exactly when the observed containers are resolvable |
| `Resolver.Match` | apps/runtime-adapter-daemon/src/resolver.ts:50-79 | keeps the labelled containers, or fails exactly when one is not expected |
| `Resolver.ResolveGroup` | apps/runtime-adapter-daemon/src/resolver.ts:98-185 | one target per container of the service, no two with the same number, or the fault of the service |
| `Resolver.ComparatorDecides` | apps/runtime-adapter-daemon/src/resolver.ts:192-201 | the container id never decides between targets that differ in service or replica |
| `Resolver.Sort` | apps/runtime-adapter-daemon/src/resolver.ts:188-201 | a permutation, strictly ordered by service and replica |
| `Resolver.ResolveTargets` | apps/runtime-adapter-daemon/src/resolver.ts:39-206 | targets exactly when resolvable: each stands for one labelled container, with its id, service, declared service id, number, state and labels, and each container has one; strictly ordered by service and replica; otherwise the first fault |
| `Resolver.FaultKind` | apps/runtime-adapter-daemon/src/resolver.ts:45-186 | which error is reported: an unexpected container if some is not expected; else, for the first badly numbered service, whether a label is at fault or a number is missing |
| `Resolver.OrderIrrelevant` | apps/runtime-adapter-daemon/src/resolver.ts:39-206 | the answer is the same for every order in which the containers are observed |
| `Lifecycle.StopAll` | apps/runtime-adapter-daemon/src/controller.ts:275-297 | stops every target once, in reverse order, and reports failures exactly when some stop failed |
| `Lifecycle.StartAll` | apps/runtime-adapter-daemon/src/controller.ts:188-204 | starts a forward prefix that ends at the first failure or when the request is aborted; the adapter's own error is passed on, any other is a rejection; no error exactly when all were started |
| `Lifecycle.InspectAll` | apps/runtime-adapter-daemon/src/controller.ts:493-510 | inspects every target and keeps the newest successful answer of each |
| `Lifecycle.HandleStart` | apps/runtime-adapter-daemon/src/controller.ts:168-250 | inspects every target exactly when every start succeeded; succeeds exactly when all were started and every target was then inspected running |
| `Lifecycle.HandleStop` | apps/runtime-adapter-daemon/src/controller.ts:256-351 | attempts every stop in reverse order and inspects every target exactly when all succeeded; succeeds exactly when none was then inspected running |
| `Lifecycle.HandleRestart` | apps/runtime-adapter-daemon/src/controller.ts:362-491 | starts nothing unless every stop succeeded and the gate saw nothing running or restarting; inspects every target exactly when all were started; succeeds exactly when all phases did |
| `Lifecycle.GateSawNothingUp` | apps/runtime-adapter-daemon/src/controller.ts:402-429 | when container ids are distinct, an open gate means no inspection at all showed running or restarting |
| `Lifecycle.EveryTargetSeenRunning` | apps/runtime-adapter-daemon/src/controller.ts:447-468 | success rests on an inspection of each target that showed it running |
| `AdapterExclusion.ApplicationMutationMutex.Acquire` | apps/runtime-adapter-daemon/src/mutex.ts:27-42 | takes a free application, and changes nothing when it is taken |
| `AdapterExclusion.ApplicationMutationMutex.Release` | apps/runtime-adapter-daemon/src/mutex.ts:47-49 | frees exactly the named application |
| `AdapterExclusion.Execute` | apps/runtime-adapter-daemon/src/controller.ts:44-102 | one request: the mutex ends as it began; a refused request makes no Docker call; otherwise the reply, with its error, and every call follow from the listing, what the resolver makes of it, and Docker's answers, and success is reported exactly when everything asked for was done and then seen |
| `AdapterExclusion.DoneMeansSeen` | apps/runtime-adapter-daemon/src/controller.ts:44-102 | a request that reports success resolved its targets, each standing for one listed container, stopped or started each of them as asked, and inspected each of them last; started ones were seen running |
| `AdapterExclusion.OnlyOwnContainers` | apps/runtime-adapter-daemon/src/controller.ts:44-102 | however a request ends, every Docker call it makes is for a listed container labelled for its application and deployment |
| `AdapterExclusion.ErrorTells` | apps/runtime-adapter-daemon/src/controller.ts:188-204 | the last Docker call is a failed start exactly when the reply is the adapter's own error or a rejection, and which of the two; a missed deadline is reported only for an aborted request without one |
| `AdapterExclusion.AlwaysExclusive` | apps/runtime-adapter-daemon/src/mutex.ts:27-49 | in every interleaving of requests an application is locked exactly while one request holds it, and between two mutations of one request no other request mutates that application |
| `AdapterExclusion.RefusalReleasesNothing` | apps/runtime-adapter-daemon/src/controller.ts:44-102 | a refused request ends with the lock still at its holder, and cannot release it |
| `AdapterExclusion.Serve` | apps/runtime-adapter-daemon/src/controller.ts:44-102 | one request served by the program is a run of the interleaving machine after any history that left the mutex as it is: it leaves the same locks and records the Docker calls made |
| `AdapterExclusion.OthersLeaveRequestAlone` | apps/runtime-adapter-daemon/src/controller.ts:44-102 | no move of another request keeps a request from its next move, so its moves can be interleaved with any others |
| `Framing.DecodeIff` | packages/application-runtime-contracts/src/codec.ts:12-115 | a frame decodes to a payload exactly when that payload encodes to the frame |
| `Framing.HeaderOrder` | packages/application-runtime-contracts/src/codec.ts:12-29 | most significant byte first: headers are ordered byte by byte as the lengths they stand for |
| `Framing.ParseConserves` | packages/application-runtime-contracts/src/codec.ts:133-165 | complete frames and rest are the input, byte for byte, and every frame decodes |
| `Framing.ParseContinues` | packages/application-runtime-contracts/src/codec.ts:133-165 | parsing more input continues at the rest |
| `Framing.StreamRoundTrip` | packages/application-runtime-contracts/src/codec.ts:66-165 | frames written one after the other are read back one after the other, with no rest |
| `Framing.FeedIsParse` | packages/application-runtime-contracts/src/codec.ts:133-165 | without an oversize header every chunking delivers the frames and rest of the whole stream |
| `Framing.FeedFails` | packages/application-runtime-contracts/src/codec.ts:142-150 | with an oversize header every chunking fails, having delivered a prefix of the frames before it |
| `Framing.LostFrames` | packages/application-runtime-contracts/src/codec.ts:142-150 | frames before an oversize header are lost when received with it and delivered when received apart |
| `Framing.ChunkingIrrelevantIff` | packages/application-runtime-contracts/src/codec.ts:133-165 | delivery up to the first error is independent of the chunking exactly when the stream has no oversize header or no complete frame before it |
| `Framing.StreamFrameDecoder.Push` | packages/application-runtime-contracts/src/codec.ts:133-165 | delivers the frames the buffer and the chunk complete and keeps the rest; an oversize header empties the buffer |
| `Framing.PushAll` | packages/application-runtime-contracts/src/codec.ts:133-165 | pushing chunks one by one delivers what the stream function says |
| `NativePeer.PendingRead.Poll` | packages/application-runtime-native-peer/native/application_runtime_native_peer.c:455-586 | one callback, under any partial reads, keeps exactly the bytes taken and never reads beyond the frame; it settles the frame unless it uses up one of finitely many interruptions |
| `NativePeer.ReadFrame` | packages/application-runtime-native-peer/native/application_runtime_native_peer.c:455-586 | over any callbacks, the payload returned is that of the first frame a streaming decoder finds and a refusal means an oversize or empty frame; with more callbacks than interruptions the read settles exactly when the decoder finds a frame or an oversize header |
| `NativePeer.PendingWrite.Continue` | packages/application-runtime-native-peer/native/application_runtime_native_peer.c:594-650 | the socket has always taken exactly a prefix of the frame |
| `NativePeer.WriteFrame` | packages/application-runtime-native-peer/native/application_runtime_native_peer.c:1002-1064 | header and payload are sent exactly once, or a proper prefix while unfinished; as many callbacks as interruptions complete the write; too large a payload sends nothing |
| `NativePeer.RequestReadable` | packages/application-runtime-contracts/src/codec.ts:12-29 | a non-empty request encoded in TypeScript is the first frame the native reader finds |
| `NativePeer.ResponseDelivered` | packages/application-runtime-contracts/src/codec.ts:84-165 | a response written natively is delivered in any chunking as one frame holding the payload |
| `Cutover.InstallGuards` | apps/trust-provisioner/src/cutover.ts:129-140 | adds the guard of every table against every kind of change |
| `Cutover.FifteenGuards` | apps/trust-provisioner/src/cutover.ts:124-140 | there are fifteen guards |
| `Cutover.GuardedRowsStay` | apps/trust-provisioner/src/cutover.ts:129-140 | with all guards in place no writer changes a row |
| `Cutover.CopyRows` | apps/trust-provisioner/src/cutover.ts:202-224 | the copy, with issuer pointers set last, holds every table of the source as it is, but for the audit sequence of an authority |
| `Cutover.DigestDecides` | apps/trust-provisioner/src/cutover.ts:61-83 | two sources have the same digest exactly when all five tables agree, but for the audit sequence of an authority |
| `Cutover.AlwaysConsistent` | apps/trust-provisioner/src/cutover.ts:41-200 | the consistency of both databases and all runs, over every sequence of steps, crashes and other writes |
| `Cutover.CompleteMeansCommitted` | apps/trust-provisioner/src/cutover.ts:85-121 | a COMPLETE target implies a committed source receipt with the same digests, the digest and the counts of the present rows, one authority with its one issuer, and all fifteen guards |
| `Cutover.CompleteMeansCopied` | apps/trust-provisioner/src/cutover.ts:41-122 | over every sequence of steps and crashes in which nobody else writes to the target, a COMPLETE target holds every table of the source, and its receipt the right counts |
| `Cutover.SourceIsFrozen` | apps/trust-provisioner/src/cutover.ts:41-122 | after the source receipt is committed rows and digest never change; after completion neither does the target receipt |
| `Cutover.VerifiedCopy` | apps/trust-provisioner/src/cutover.ts:74-83 | a run that passes verification found every table of the source copied in the target |
| `Cutover.AttemptSucceedsIff` | apps/trust-provisioner/src/cutover.ts:41-122 | an undisturbed run succeeds exactly when the source is valid and the target is blank or holds the prepared copy of the same rows |
| `Cutover.RerunFails` | apps/trust-provisioner/src/cutover.ts:116-121 | a run after completion fails and changes neither rows, digest nor target receipt |
| `Cutover.Run` | apps/trust-provisioner/src/cutover.ts:41-122 | the program, killed after any of its steps, leaves what a sequence of model steps leaves; it reports success exactly under the condition above, and then the target is COMPLETE and holds every table of the unchanged source |
| `Readiness.ParseIff` | apps/runtime-authority/src/readiness.ts:70-103 | bytes are accepted exactly when, with their high bits dropped, they are the printed record of this instance, a state and a positive socket id that match the socket, and fit |
| `Readiness.RecordFits` | apps/runtime-authority/src/readiness.ts:43-55 | records of 64-bit socket ids take at most 173 bytes, READY records at most 169 |
| `Readiness.StateRoundTrip` | apps/runtime-authority/src/readiness.ts:43-103 | what is printed for 64-bit socket ids is accepted and parses back to the same values |
| `Readiness.ParseEpochIff` | apps/runtime-authority/src/readiness.ts:32-41 | an epoch is accepted exactly when, with its high bits dropped, it is the printed record of a well-formed instance |
| `ReadinessNative.DecodeEncode` | native/host-runtime/runtime-authority-readiness.c:262-279 | unpadded base64url of 3k+2 bytes stays in the alphabet, has the expected length and decodes back |
| `ReadinessNative.SameNumber` | native/host-runtime/runtime-authority-readiness.c:262-279 | the symbols, by their places in the alphabet, are the bits of the bytes: text read in base 64 is the bytes read in base 256, with two zero bits at the end |
| `ReadinessNative.Base64Url` | native/host-runtime/runtime-authority-readiness.c:262-279 | the buffer holds the base64url text of the 32 bytes and a terminating NUL |
| `ReadinessNative.EpochReadersAgree` | native/host-runtime/runtime-authority-readiness.c:342-369 | the native reader takes a well-formed instance exactly from the bytes from which TypeScript takes the same one and in which no high bit is set |
| `ReadinessNative.RaisedEpochSplitsReaders` | native/host-runtime/runtime-authority-readiness.c:342-369 | one high bit set anywhere in an accepted epoch: TypeScript still reads the instance, the native reader does not |
| `ReadinessNative.WrittenEpochAccepted` | native/host-runtime/runtime-authority-readiness.c:313-318 | a written epoch has 90 bytes, both readers take the same instance from it, and it decodes to the random bytes |
| `ReadinessNative.ValidatesIff` | native/host-runtime/runtime-authority-readiness.c:393-403 | the native check accepts exactly the printed READY records of the instance with 64-bit positive socket ids, for every instance that `sscanf` can yield and for no other |
| `ReadinessNative.ReadyReadersAgree` | native/host-runtime/runtime-authority-readiness.c:393-403 | the native check accepts exactly the READY records of 64-bit sockets that TypeScript accepts and in which no high bit is set |
| `ReadinessNative.RaisedReadySplitsReaders` | native/host-runtime/runtime-authority-readiness.c:393-403 | one high bit set anywhere in a READY record: TypeScript still accepts it, the native check does not |

## Left out

- Repository.MutationRepository.ListRecoverable: the order of ids is any total order, where `localeCompare` may also equate different strings.
- Repository.MutationRepository.Append: audit event ids are not modelled.
- Orchestrator.Perform: authorisation, snapshot resolution and crash injection are not modelled; a claim input is given. Other clients ask for recovery leases on this key only before this lease expires, and call for the operation itself only after it got its lease.
- GatewayService.Perform: role checks, validation, registry lookup and the error-mapping tables are not modelled; a gateway reply is success, timeout or another failure with a reason. Other clients ask for recovery leases on this key only before this lease expires, and call for the operation itself only after it got its lease.
- StepRecovery.Recover: the pass's one clock reading and its lease length are parameters.
- MutationClients.ForeignCall: does not cover a recovery lease on the same key after the held lease expired, which takes the lock (`MutationClients.TakenOverIff`).
- MutationClients.OtherClients: the same recovery leases are passed over.
- Lifecycle.InspectAll: inspections are made one after the other, where the source starts them together.
- Resolver.ResolveTargets: name comparison is any total order, where `localeCompare` may also equate different strings.
- ReplicaLabels.AcceptedIff: labels above 2^53, where JavaScript numbers lose digits, are read exactly.
- Framing.DecodeIff: JSON, UTF-8 and schema validation of the payload.
- NativePeer.ReadFrame: deadlines, allocation failure and the promise machinery; a `read` or `write` moves at least one byte or reports that it cannot.
- Cutover.Run: SHA-256 is an injective function, rows are listed in their fixed order, and columns that play no part are opaque; the copied snapshot tables of the source are not modelled.
- ReadinessNative.ValidatesIff: file identity, ownership and the socket's own node.
- Hash and pattern checks of a parent claim are booleans of its input.
- Rows returned to callers as copies, and the plain lookups `findOperation`, `findOperationWithSteps`, `findParentClaim` and `listAuditEvents`.
- Interleaving inside one repository call, other than a failure request raised before its last audit write.
- `MutationRecoveryService` as a program: one of its calls is in `MutationScenarios.UndisciplinedRecovery`, and over operations without steps its pass would repeat the single-step pass with a simpler decision.
- The step-less mutation service of the core package: the gateway service uses the same calls.
- The readiness publisher's file handling, and STATUS and INSPECT requests beyond their bypassing of the mutex.
- HTTP routes, the web interface, Prisma repositories, Docker transport, capability dropping and mounts.
