/**
 * The durable mutation protocol as transactions over values: the repository's
 * six tables, its calls, what each call decides, and what a decision commits.
 * Each call commits at most one `Effect`, state and audit together.
 */
module MutationModel {
  import opened Basics
  import opened ActionStatuses
  import opened Aggregation
  import ClaimKeys

  type Id = string

  // ---------------------------------------------------------------- records

  datatype ActionPlan = ActionPlan(
    operationId: Id,
    actorId: Id,
    actorRole: string,
    action: string,
    applicationId: Id,
    serviceId: Option<Id>,
    containerId: Option<Id>,
    executionDomain: string,
    operationKey: Id,
    idempotencyKey: string)

  datatype Progress = Progress(startedAt: Option<int>, completedAt: Option<int>, updatedAt: int)

  datatype Operation = Operation(
    plan: ActionPlan,
    fingerprint: string,
    verdict: Verdict,
    token: Option<nat>,
    deadlineAt: int,
    createdAt: int,
    progress: Progress)

  /** What a step was created to act on; never changed afterwards. */
  datatype Target = Target(
    applicationId: Id,
    deploymentId: Id,
    serviceId: Id,
    containerId: Id,
    action: string,
    executionDomain: string,
    targetFingerprint: string)

  datatype Evidence = Evidence(
    snapshotAt: int,
    authorityEvidence: string,
    applicationDiscoveredAt: int,
    deploymentDiscoveredAt: int,
    runtimeObservedAt: int)

  datatype StepOrigin = StepOrigin(sequence: nat, target: Target, evidence: Evidence, deadlineAt: int, createdAt: int)

  /** When dispatch was authorised, and under which token. */
  datatype Dispatch = Dispatch(at: int, token: nat)

  datatype Step = Step(
    id: Id,
    parentId: Id,
    origin: StepOrigin,
    verdict: Verdict,
    token: Option<nat>,
    dispatch: Option<Dispatch>,
    progress: Progress)

  datatype Lease = Lease(operationKey: Id, owner: Id, token: nat, acquiredAt: int, expiresAt: int)

  datatype ClaimEntry = ClaimEntry(fingerprint: string, operationId: Id, expiresAt: int)

  datatype EventType =
    | ClaimedEvent | StepCreatedEvent | DispatchEvent | StateChangedEvent
    | CompletedEvent | FailedEvent | RecoveredEvent | ReplayedEvent

  /** Who did what to which target. */
  datatype Subject = Subject(
    actorId: Id,
    actorRole: string,
    action: string,
    applicationId: Id,
    serviceId: Option<Id>,
    containerId: Option<Id>)

  datatype AuditEvent = AuditEvent(
    operationId: Id,
    childStepId: Option<Id>,
    sequence: nat,
    subject: Subject,
    status: ActionStatus,
    eventType: EventType,
    reason: Option<string>,
    timestamp: int)

  datatype State = State(
    operations: map<Id, Operation>,
    steps: map<Id, Step>,
    claims: map<string, ClaimEntry>,
    locks: map<Id, Lease>,
    fences: map<Id, nat>,
    audits: map<Id, seq<AuditEvent>>)

  const EmptyState := State(map[], map[], map[], map[], map[], map[])

  function AuditsOf(s: State, id: Id): seq<AuditEvent> {
    if id in s.audits then s.audits[id] else []
  }

  function Fence(s: State, key: Id): nat {
    if key in s.fences then s.fences[key] else 0
  }

  function StepsOf(s: State, operationId: Id): set<Id> {
    set id | id in s.steps && s.steps[id].parentId == operationId
  }

  // ---------------------------------------------------------------- calls

  datatype ClaimInput = ClaimInput(
    plan: ActionPlan, fingerprint: string, now: int, expiresAt: int, deadlineAt: int)

  /** `fingerprintMatches` and `patternsMatch` are the results of the hash and pattern checks. */
  datatype ParentClaimInput = ParentClaimInput(
    claim: ClaimInput,
    stepId: Id,
    target: Target,
    evidence: Evidence,
    fingerprintMatches: bool,
    patternsMatch: bool)

  datatype ReplayInput = ReplayInput(actorId: Id, idempotencyKey: string, fingerprint: string, now: int)

  datatype StepDispatchInput = StepDispatchInput(
    operationId: Id, operationKey: Id, token: nat, stepId: Id, target: Target, now: int)

  datatype DispatchInput = DispatchInput(
    operationId: Id,
    operationKey: Id,
    token: nat,
    action: string,
    applicationId: Id,
    serviceId: Option<Id>,
    containerId: Id,
    executionDomain: string,
    now: int)

  datatype StepTransitionInput = StepTransitionInput(
    operationId: Id,
    stepId: Id,
    expected: seq<ActionStatus>,
    status: ActionStatus,
    now: int,
    eventType: EventType,
    ownership: Lease,
    adopt: bool,
    verification: Option<VerificationState>,
    recovery: Option<RecoveryState>,
    effect: Option<ExternalEffect>,
    reason: Option<string>,
    startedAt: Option<Option<int>>)

  datatype StepFinalizationInput = StepFinalizationInput(
    operationId: Id,
    stepId: Id,
    expected: seq<ActionStatus>,
    status: ActionStatus,
    now: int,
    ownership: Lease,
    verification: VerificationState,
    recovery: RecoveryState,
    effect: ExternalEffect,
    reason: Option<string>)

  datatype TransitionInput = TransitionInput(
    operationId: Id,
    expected: seq<ActionStatus>,
    status: ActionStatus,
    now: int,
    eventType: EventType,
    reason: Option<string>,
    verification: Option<VerificationState>,
    recovery: Option<RecoveryState>,
    token: Option<Option<nat>>,
    startedAt: Option<Option<int>>,
    completedAt: Option<Option<int>>,
    ownership: Option<Lease>,
    adopt: bool,
    release: bool)

  datatype Call =
    | Claim(claim: ClaimInput)
    | ClaimParent(parent: ParentClaimInput)
    | ReplayParent(replay: ReplayInput)
    | RejectBeforeOwnership(rejectOperation: Id, rejectStep: Id, rejectNow: int, rejectReason: string)
    | AuthorizeStep(stepDispatch: StepDispatchInput)
    | TransitionStep(stepTransition: StepTransitionInput)
    | FinalizeStep(finalization: StepFinalizationInput)
    | RecoverStep(recoverOperation: Id, recoverStep: Id, recoverLease: Lease, recoverNow: int)
    | AuthorizeOperation(dispatch: DispatchInput)
    | TransitionOperation(transition: TransitionInput)
    | AcquireLease(acquireKey: Id, acquireOperation: Id, acquireNow: int, acquireExpires: int)
    | AcquireRecoveryLease(reacquireKey: Id, reacquireOperation: Id, reacquireNow: int, reacquireExpires: int)
    | RenewLease(renewed: Lease, renewNow: int, renewExpires: int)
    | ReleaseLease(released: Lease)

  datatype MutationError =
    | IdempotencyConflict | PersistenceFailed | AuditPersistenceFailed | StaleOwnership
    | IllegalTransition | InvalidRequest | InvalidTarget | LeaseNotInFuture

  datatype Reply =
    | Created(operationId: Id)
    | Replayed(operationId: Id)
    | Done
    | NotFound
    | Granted(lease: Lease)
    | Declined
    | Failure(error: MutationError)

  datatype ClaimChange = KeepClaims | PutClaim(key: string, entry: ClaimEntry) | DropClaim(dropped: string)

  /** Granting issues a new token; renewing does not. */
  datatype LockChange = KeepLocks | GrantLock(lease: Lease) | RenewLock(lease: Lease) | DropLock(key: Id)

  /** What a call commits: at most one row per table, and new events of one log. */
  datatype Effect = Effect(
    operation: Option<Operation>,
    step: Option<Step>,
    claim: ClaimChange,
    lock: LockChange,
    logged: Id,
    events: seq<AuditEvent>)

  const NoEffect := Effect(None, None, KeepClaims, KeepLocks, "", [])

  function LockEffect(change: LockChange): Effect {
    NoEffect.(lock := change)
  }

  /** The expired claim that a refused creation has already dropped. */
  function DropEffect(s: State, key: string): Effect {
    if key in s.claims then NoEffect.(claim := DropClaim(key)) else NoEffect
  }

  function LogEffect(op: Operation, events: seq<AuditEvent>): Effect {
    NoEffect.(logged := op.plan.operationId, events := events)
  }

  function CreateEffect(key: string, entry: ClaimEntry, op: Operation, step: Option<Step>, events: seq<AuditEvent>): Effect {
    Effect(Some(op), step, PutClaim(key, entry), KeepLocks, op.plan.operationId, events)
  }

  function UpdateEffect(op: Operation, step: Option<Step>, events: seq<AuditEvent>, lock: LockChange): Effect {
    Effect(Some(op), step, KeepClaims, lock, op.plan.operationId, events)
  }

  datatype Decision = Decision(reply: Reply, effect: Effect)

  // ---------------------------------------------------------------- committing

  function CommitOperation(table: map<Id, Operation>, row: Option<Operation>): map<Id, Operation> {
    if row.Some? then table[row.value.plan.operationId := row.value] else table
  }

  function CommitStep(table: map<Id, Step>, row: Option<Step>): map<Id, Step> {
    if row.Some? then table[row.value.id := row.value] else table
  }

  function CommitClaim(table: map<string, ClaimEntry>, change: ClaimChange): map<string, ClaimEntry> {
    match change
    case KeepClaims => table
    case PutClaim(key, entry) => table[key := entry]
    case DropClaim(key) => table - {key}
  }

  function CommitLock(table: map<Id, Lease>, change: LockChange): map<Id, Lease> {
    match change
    case KeepLocks => table
    case GrantLock(lease) => table[lease.operationKey := lease]
    case RenewLock(lease) => table[lease.operationKey := lease]
    case DropLock(key) => table - {key}
  }

  function CommitFence(table: map<Id, nat>, change: LockChange): map<Id, nat> {
    if change.GrantLock? then table[change.lease.operationKey := change.lease.token] else table
  }

  function CommitLog(table: map<Id, seq<AuditEvent>>, id: Id, events: seq<AuditEvent>): map<Id, seq<AuditEvent>> {
    if events == [] then table else table[id := (if id in table then table[id] else []) + events]
  }

  function Commit(s: State, e: Effect): State {
    State(
      CommitOperation(s.operations, e.operation),
      CommitStep(s.steps, e.step),
      CommitClaim(s.claims, e.claim),
      CommitLock(s.locks, e.lock),
      CommitFence(s.fences, e.lock),
      CommitLog(s.audits, e.logged, e.events))
  }

  // ---------------------------------------------------------------- building blocks

  function Refuse(error: MutationError): Decision {
    Decision(Failure(error), NoEffect)
  }

  /** Commits `e` unless the audit write fails. */
  function Audited(fault: bool, e: Effect): Decision {
    if fault then Refuse(AuditPersistenceFailed) else Decision(Done, e)
  }

  function MakeEvent(
    sequence: nat, op: Operation, child: Option<Step>, eventType: EventType, now: int, reason: Option<string>): AuditEvent
  {
    AuditEvent(
      op.plan.operationId,
      if child.Some? then Some(child.value.id) else None,
      sequence,
      Subject(op.plan.actorId, op.plan.actorRole, op.plan.action, op.plan.applicationId,
              if child.Some? then Some(child.value.origin.target.serviceId) else op.plan.serviceId,
              if child.Some? then Some(child.value.origin.target.containerId) else op.plan.containerId),
      if child.Some? then child.value.verdict.status else op.verdict.status,
      eventType, reason, now)
  }

  /** The next event of `op`'s own log. */
  function NextEvent(s: State, op: Operation, child: Option<Step>, eventType: EventType, now: int, reason: Option<string>): AuditEvent {
    MakeEvent(|AuditsOf(s, op.plan.operationId)| + 1, op, child, eventType, now, reason)
  }

  /** A child event followed by the parent's own event. */
  function ChildThenParent(s: State, op: Operation, child: Step, eventType: EventType, now: int, reason: Option<string>): seq<AuditEvent> {
    var n := |AuditsOf(s, op.plan.operationId)|;
    [MakeEvent(n + 1, op, Some(child), eventType, now, reason),
     MakeEvent(n + 2, op, None, eventType, now, reason)]
  }

  predicate Owns(s: State, op: Operation, key: Id, token: nat, now: int, adopt: bool) {
    && key in s.locks
    && s.locks[key].owner == op.plan.operationId
    && s.locks[key].token == token
    && s.locks[key].expiresAt > now
    && op.plan.operationKey == key
    && (adopt || op.token == Some(token))
  }

  const FreshVerdict := Verdict(Validated, VerificationNotStarted, RecoveryNone, EffectNotStarted, None)

  function FreshOperation(i: ClaimInput): Operation {
    Operation(i.plan, i.fingerprint, FreshVerdict, None, i.deadlineAt, i.now, Progress(None, None, i.now))
  }

  function FreshStep(i: ParentClaimInput): Step {
    Step(i.stepId, i.claim.plan.operationId, StepOrigin(1, i.target, i.evidence, i.claim.deadlineAt, i.claim.now),
         FreshVerdict, None, None, Progress(None, None, i.claim.now))
  }

  function OrElse<T>(change: Option<T>, current: T): T {
    if change.Some? then change.value else current
  }

  /** The parent takes over the verdict of its one step. */
  function WithChild(op: Operation, st: Step, now: int): Operation {
    op.(verdict := SoleVerdict(st.verdict), progress := op.progress.(updatedAt := now))
  }

  function Completed(p: Progress, now: int): Progress {
    p.(completedAt := Some(now), updatedAt := now)
  }

  function StepAfterRejection(st: Step, reason: string, now: int): Step {
    st.(verdict := st.verdict.(status := Rejected, reason := Some(reason)), progress := Completed(st.progress, now))
  }

  function StepAfterTransition(st: Step, i: StepTransitionInput): Step {
    st.(verdict := Verdict(i.status, OrElse(i.verification, st.verdict.verification),
                           OrElse(i.recovery, st.verdict.recovery), OrElse(i.effect, st.verdict.effect), i.reason),
        token := Some(i.ownership.token),
        progress := st.progress.(startedAt := OrElse(i.startedAt, st.progress.startedAt), updatedAt := i.now))
  }

  function OperationAfterStep(op: Operation, st: Step, i: StepTransitionInput): Operation {
    op.(verdict := SoleVerdict(st.verdict), token := Some(i.ownership.token),
        progress := op.progress.(startedAt := OrElse(i.startedAt, op.progress.startedAt), updatedAt := i.now))
  }

  function StepAfterFinalization(st: Step, i: StepFinalizationInput): Step {
    st.(verdict := Verdict(i.status, i.verification, i.recovery, i.effect, i.reason),
        token := Some(i.ownership.token), progress := Completed(st.progress, i.now))
  }

  /** Dispatch may have happened, so recovery cannot call the outcome settled. */
  predicate Uncertain(st: Step) {
    st.dispatch.Some? || st.verdict.effect != EffectNotStarted
  }

  function RecoveryStatus(st: Step): ActionStatus {
    if Uncertain(st) then Indeterminate else Rejected
  }

  function StepAfterRecovery(st: Step, lease: Lease, now: int): Step {
    var v :=
      if Uncertain(st) then
        Verdict(Indeterminate, VerificationUnknown, OutcomeUnknown, EffectPossiblyActive, Some("RECOVERY_OUTCOME_UNKNOWN"))
      else
        Verdict(Rejected, st.verdict.verification, RecoveredPreExecution, EffectNotStarted, Some("RECOVERY_PRE_EXECUTION_ABORTED"));
    st.(verdict := v, token := Some(lease.token), progress := Completed(st.progress, now))
  }

  function OperationAfterTransition(op: Operation, i: TransitionInput): Operation {
    op.(verdict := op.verdict.(status := i.status, reason := i.reason,
                               verification := OrElse(i.verification, op.verdict.verification),
                               recovery := OrElse(i.recovery, op.verdict.recovery)),
        token := (if i.ownership.Some? then Some(i.ownership.value.token) else OrElse(i.token, op.token)),
        progress := Progress(OrElse(i.startedAt, op.progress.startedAt),
                             OrElse(i.completedAt, op.progress.completedAt), i.now))
  }

  predicate Expects(expected: seq<ActionStatus>) {
    Executing in expected || Verifying in expected
  }

  // ---------------------------------------------------------------- claims

  predicate LiveClaim(s: State, key: string, now: int) {
    key in s.claims && s.claims[key].expiresAt > now
  }

  function DecideClaim(s: State, i: ClaimInput, fault: bool): Decision {
    var key := ClaimKeys.ClaimKey(i.plan.actorId, i.plan.idempotencyKey);
    var id := i.plan.operationId;
    if LiveClaim(s, key, i.now) then
      ReplayClaim(s, s.claims[key], i.fingerprint, i.now, fault)
    else if id in s.operations then
      Decision(Failure(PersistenceFailed), DropEffect(s, key))
    else
      var op := FreshOperation(i);
      var entry := ClaimEntry(i.fingerprint, id, i.expiresAt);
      if fault then Decision(Failure(AuditPersistenceFailed), CreateEffect(key, entry, op, None, []))
      else Decision(Created(id), CreateEffect(key, entry, op, None, [NextEvent(s, op, None, ClaimedEvent, i.now, None)]))
  }

  function ReplayClaim(s: State, entry: ClaimEntry, fingerprint: string, now: int, fault: bool): Decision {
    if entry.fingerprint != fingerprint then Refuse(IdempotencyConflict)
    else if entry.operationId !in s.operations then Refuse(PersistenceFailed)
    else if fault then Refuse(AuditPersistenceFailed)
    else
      var op := s.operations[entry.operationId];
      Decision(Replayed(entry.operationId), LogEffect(op, [NextEvent(s, op, None, ReplayedEvent, now, None)]))
  }

  /** `assertParentChildClaimInput`: first the request's consistency, then the snapshot's. */
  function ParentClaimProblem(i: ParentClaimInput): Option<MutationError> {
    var plan := i.claim.plan;
    if plan.serviceId.Some? || plan.containerId.Some?
       || plan.applicationId != i.target.applicationId
       || plan.action != i.target.action
       || plan.executionDomain != i.target.executionDomain
       || plan.operationKey != "application:" + plan.applicationId
       || !i.fingerprintMatches
    then Some(InvalidRequest)
    else if !i.patternsMatch || i.evidence.snapshotAt > i.claim.now
            || i.claim.expiresAt <= i.claim.now || i.claim.deadlineAt <= i.claim.now
    then Some(InvalidTarget)
    else None
  }

  function DecideClaimParent(s: State, i: ParentClaimInput, fault: bool): Decision {
    var problem := ParentClaimProblem(i);
    var key := ClaimKeys.ClaimKey(i.claim.plan.actorId, i.claim.plan.idempotencyKey);
    var id := i.claim.plan.operationId;
    if problem.Some? then Refuse(problem.value)
    else if LiveClaim(s, key, i.claim.now) then
      ReplayClaim(s, s.claims[key], i.claim.fingerprint, i.claim.now, fault)
    else if id in s.operations || i.stepId in s.steps then
      Decision(Failure(PersistenceFailed), DropEffect(s, key))
    else if fault then Refuse(AuditPersistenceFailed)
    else
      var op, st := FreshOperation(i.claim), FreshStep(i);
      var n := |AuditsOf(s, id)|;
      Decision(Created(id),
               CreateEffect(key, ClaimEntry(i.claim.fingerprint, id, i.claim.expiresAt), op, Some(st),
                            [MakeEvent(n + 1, op, None, ClaimedEvent, i.claim.now, None),
                             MakeEvent(n + 2, op, Some(st), StepCreatedEvent, i.claim.now, None)]))
  }

  function DecideReplayParent(s: State, i: ReplayInput, fault: bool): Decision {
    var key := ClaimKeys.ClaimKey(i.actorId, i.idempotencyKey);
    if !LiveClaim(s, key, i.now) then Decision(NotFound, NoEffect)
    else if s.claims[key].fingerprint != i.fingerprint then Refuse(IdempotencyConflict)
    else if s.claims[key].operationId !in s.operations || |StepsOf(s, s.claims[key].operationId)| != 1
    then Refuse(PersistenceFailed)
    else ReplayClaim(s, s.claims[key], i.fingerprint, i.now, fault)
  }

  // ---------------------------------------------------------------- steps

  predicate HasStep(s: State, operationId: Id, stepId: Id) {
    operationId in s.operations && stepId in s.steps && s.steps[stepId].parentId == operationId
  }

  function DecideReject(s: State, operationId: Id, stepId: Id, now: int, reason: string, fault: bool): Decision {
    if !HasStep(s, operationId, stepId) then Refuse(PersistenceFailed)
    else
      var op, st := s.operations[operationId], s.steps[stepId];
      if op.verdict.status != Validated || st.verdict.status != Validated || op.token.Some? || st.token.Some?
         || (op.plan.operationKey in s.locks && s.locks[op.plan.operationKey].owner == operationId)
      then Refuse(StaleOwnership)
      else
        var st' := StepAfterRejection(st, reason, now);
        var op' := WithChild(op, st', now);
        var done := op'.(progress := Completed(op'.progress, now));
        Audited(fault, UpdateEffect(done, Some(st'), ChildThenParent(s, done, st', FailedEvent, now, Some(reason)), KeepLocks))
  }

  function DecideAuthorizeStep(s: State, i: StepDispatchInput, fault: bool): Decision {
    if !HasStep(s, i.operationId, i.stepId) then Refuse(PersistenceFailed)
    else
      var op, st := s.operations[i.operationId], s.steps[i.stepId];
      if !Owns(s, op, i.operationKey, i.token, i.now, false)
         || st.verdict.status != Executing || st.dispatch.Some? || st.origin.target != i.target
      then Refuse(StaleOwnership)
      else
        var st' := st.(dispatch := Some(Dispatch(i.now, i.token)), token := Some(i.token),
                       progress := st.progress.(updatedAt := i.now));
        Audited(fault, UpdateEffect(op, Some(st'), [NextEvent(s, op, Some(st'), DispatchEvent, i.now, None)], KeepLocks))
  }

  function DecideTransitionStep(s: State, i: StepTransitionInput, fault: bool): Decision {
    if !HasStep(s, i.operationId, i.stepId) then Refuse(PersistenceFailed)
    else
      var op, st := s.operations[i.operationId], s.steps[i.stepId];
      if !Owns(s, op, i.ownership.operationKey, i.ownership.token, i.now, i.adopt) then Refuse(StaleOwnership)
      else if st.verdict.status !in i.expected || !TransitionAllowed(st.verdict.status, i.status)
              || !EffectChangeAllowed(st.verdict.effect, OrElse(i.effect, st.verdict.effect), st.dispatch.Some?)
      then Refuse(IllegalTransition)
      else
        var st' := StepAfterTransition(st, i);
        var op' := OperationAfterStep(op, st', i);
        Audited(fault, UpdateEffect(op', Some(st'), [NextEvent(s, op', Some(st'), i.eventType, i.now, i.reason)], KeepLocks))
  }

  function DecideFinalizeStep(s: State, i: StepFinalizationInput, fault: bool): Decision {
    if !IsTerminal(i.status) then Refuse(IllegalTransition)
    else if !HasStep(s, i.operationId, i.stepId) then Refuse(PersistenceFailed)
    else
      var op, st := s.operations[i.operationId], s.steps[i.stepId];
      if !Owns(s, op, i.ownership.operationKey, i.ownership.token, i.now, false) then Refuse(StaleOwnership)
      else if st.verdict.status !in i.expected || !TransitionAllowed(st.verdict.status, i.status)
              || !EffectChangeAllowed(st.verdict.effect, i.effect, st.dispatch.Some?)
              || !TerminalEffectAllowed(i.status, i.effect)
      then Refuse(IllegalTransition)
      else
        var st' := StepAfterFinalization(st, i);
        var op' := WithChild(op, st', i.now);
        var done := op'.(progress := Completed(op'.progress, i.now));
        var eventType := if i.status == Succeeded then CompletedEvent else FailedEvent;
        Audited(fault, UpdateEffect(done, Some(st'), ChildThenParent(s, done, st', eventType, i.now, i.reason),
                                    if done.verdict.status == Indeterminate then KeepLocks else DropLock(i.ownership.operationKey)))
  }

  function DecideRecoverStep(s: State, operationId: Id, stepId: Id, lease: Lease, now: int, fault: bool): Decision {
    if !HasStep(s, operationId, stepId) then Refuse(PersistenceFailed)
    else
      var op, st := s.operations[operationId], s.steps[stepId];
      if !Owns(s, op, lease.operationKey, lease.token, now, true) then Refuse(StaleOwnership)
      else if IsTerminal(st.verdict.status) then Decision(Done, NoEffect)
      else if !RecoveryAllowed(st.verdict.status, RecoveryStatus(st)) then Refuse(IllegalTransition)
      else
        var st' := StepAfterRecovery(st, lease, now);
        var op' := WithChild(op, st', now);
        var done := op'.(token := Some(lease.token), progress := Completed(op'.progress, now));
        Audited(fault, UpdateEffect(done, Some(st'), ChildThenParent(s, done, st', RecoveredEvent, now, st'.verdict.reason),
                                    if Uncertain(st) then KeepLocks else DropLock(lease.operationKey)))
  }

  // ---------------------------------------------------------------- operations without steps

  predicate HasDispatchEvent(events: seq<AuditEvent>) {
    exists k :: 0 <= k < |events| && events[k].eventType == DispatchEvent
  }

  ghost function DecideAuthorizeOperation(s: State, i: DispatchInput, fault: bool): Decision {
    if i.operationId !in s.operations then Refuse(PersistenceFailed)
    else if StepsOf(s, i.operationId) != {} then
      if |StepsOf(s, i.operationId)| != 1 || i.serviceId.None? then Refuse(StaleOwnership)
      else
        var id :| id in StepsOf(s, i.operationId);
        DecideAuthorizeStep(s, ChildDispatch(i, s.steps[id]), fault)
    else
      var op := s.operations[i.operationId];
      if op.verdict.status != Executing || op.token != Some(i.token) || op.plan.operationKey != i.operationKey
         || op.plan.action != i.action || op.plan.applicationId != i.applicationId
         || op.plan.serviceId != i.serviceId || op.plan.containerId != Some(i.containerId)
         || op.plan.executionDomain != i.executionDomain
         || i.operationKey !in s.locks || s.locks[i.operationKey].owner != i.operationId
         || s.locks[i.operationKey].token != i.token || s.locks[i.operationKey].expiresAt <= i.now
         || HasDispatchEvent(AuditsOf(s, i.operationId))
      then Refuse(StaleOwnership)
      else Audited(fault, LogEffect(op, [NextEvent(s, op, None, DispatchEvent, i.now, None)]))
  }

  /** The step-level authorisation an operation with one child asks for. */
  function ChildDispatch(i: DispatchInput, st: Step): StepDispatchInput
    requires i.serviceId.Some?
  {
    StepDispatchInput(i.operationId, i.operationKey, i.token, st.id,
      Target(i.applicationId, st.origin.target.deploymentId, i.serviceId.value, i.containerId,
             i.action, i.executionDomain, st.origin.target.targetFingerprint), i.now)
  }

  /** The ownership rules of `transitionWithAudit`, before the state itself is looked at. */
  predicate TransitionOwnershipOk(s: State, op: Operation, i: TransitionInput) {
    && (i.status == Executing || Expects(i.expected) || i.release || i.adopt ==> i.ownership.Some?)
    && !(i.status == Indeterminate && i.release)
    && (i.ownership.Some? ==>
          var own := i.ownership.value;
          && own.operationKey in s.locks
          && s.locks[own.operationKey].owner == i.operationId
          && s.locks[own.operationKey].token == own.token
          && s.locks[own.operationKey].expiresAt > i.now
          && (!i.adopt && Expects(i.expected) ==> op.token == Some(own.token)))
  }

  function DecideTransition(s: State, i: TransitionInput, fault: bool): Decision {
    if i.operationId !in s.operations then Refuse(PersistenceFailed)
    else
      var op := s.operations[i.operationId];
      if !TransitionOwnershipOk(s, op, i) then Refuse(StaleOwnership)
      else if op.verdict.status !in i.expected || !TransitionAllowed(op.verdict.status, i.status) then Refuse(IllegalTransition)
      else
        var op' := OperationAfterTransition(op, i);
        Audited(fault, UpdateEffect(op', None, [NextEvent(s, op', None, i.eventType, i.now, i.reason)],
                                    if IsTerminal(i.status) && i.release && i.ownership.Some?
                                    then DropLock(i.ownership.value.operationKey) else KeepLocks))
  }

  // ---------------------------------------------------------------- leases

  /** Who holds the key decides what `acquireLease` does. */
  function DecideAcquire(s: State, key: Id, operationId: Id, now: int, expiresAt: int): Decision {
    if expiresAt <= now then Refuse(LeaseNotInFuture)
    else if operationId !in s.operations || s.operations[operationId].plan.operationKey != key then Decision(Declined, NoEffect)
    else if key in s.locks && s.locks[key].owner in s.operations && s.operations[s.locks[key].owner].verdict.status == Indeterminate
    then Decision(Declined, NoEffect)
    else if key in s.locks && s.locks[key].owner in s.operations && !IsTerminal(s.operations[s.locks[key].owner].verdict.status)
    then
      if s.locks[key].owner == operationId && s.locks[key].expiresAt > now then Decision(Granted(s.locks[key]), NoEffect)
      else Decision(Declined, NoEffect)
    else
      var lease := Lease(key, operationId, Fence(s, key) + 1, now, expiresAt);
      Decision(Granted(lease), LockEffect(GrantLock(lease)))
  }

  function DecideAcquireRecovery(s: State, key: Id, operationId: Id, now: int, expiresAt: int): Decision {
    if expiresAt <= now then Refuse(LeaseNotInFuture)
    else if operationId !in s.operations || s.operations[operationId].plan.operationKey != key
            || IsTerminal(s.operations[operationId].verdict.status)
            || (key in s.locks && s.locks[key].owner in s.operations && s.operations[s.locks[key].owner].verdict.status == Indeterminate)
            || (key in s.locks && s.locks[key].expiresAt > now)
    then Decision(Declined, NoEffect)
    else
      var lease := Lease(key, operationId, Fence(s, key) + 1, now, expiresAt);
      Decision(Granted(lease), LockEffect(GrantLock(lease)))
  }

  function DecideRenew(s: State, lease: Lease, now: int, expiresAt: int): Decision {
    if expiresAt <= now then Refuse(LeaseNotInFuture)
    else if lease.operationKey !in s.locks || s.locks[lease.operationKey].owner != lease.owner
            || s.locks[lease.operationKey].token != lease.token || s.locks[lease.operationKey].expiresAt <= now
    then Decision(Declined, NoEffect)
    else
      var lease' := s.locks[lease.operationKey].(expiresAt := expiresAt);
      Decision(Granted(lease'), LockEffect(RenewLock(lease')))
  }

  function DecideRelease(s: State, lease: Lease): Decision {
    if lease.operationKey !in s.locks || s.locks[lease.operationKey].owner != lease.owner
       || s.locks[lease.operationKey].token != lease.token
       || s.locks[lease.operationKey].owner !in s.operations
       || !IsTerminal(s.operations[s.locks[lease.operationKey].owner].verdict.status)
       || s.operations[s.locks[lease.operationKey].owner].verdict.status == Indeterminate
    then Decision(Declined, NoEffect)
    else Decision(Done, LockEffect(DropLock(lease.operationKey)))
  }

  // ---------------------------------------------------------------- all calls

  /** `fault` says that an audit write of this call fails. */
  ghost function Decide(s: State, c: Call, fault: bool): Decision {
    match c
    case Claim(i) => DecideClaim(s, i, fault)
    case ClaimParent(i) => DecideClaimParent(s, i, fault)
    case ReplayParent(i) => DecideReplayParent(s, i, fault)
    case RejectBeforeOwnership(op, st, now, reason) => DecideReject(s, op, st, now, reason, fault)
    case AuthorizeStep(i) => DecideAuthorizeStep(s, i, fault)
    case TransitionStep(i) => DecideTransitionStep(s, i, fault)
    case FinalizeStep(i) => DecideFinalizeStep(s, i, fault)
    case RecoverStep(op, st, lease, now) => DecideRecoverStep(s, op, st, lease, now, fault)
    case AuthorizeOperation(i) => DecideAuthorizeOperation(s, i, fault)
    case TransitionOperation(i) => DecideTransition(s, i, fault)
    case AcquireLease(key, op, now, expires) => DecideAcquire(s, key, op, now, expires)
    case AcquireRecoveryLease(key, op, now, expires) => DecideAcquireRecovery(s, key, op, now, expires)
    case RenewLease(lease, now, expires) => DecideRenew(s, lease, now, expires)
    case ReleaseLease(lease) => DecideRelease(s, lease)
  }

  ghost function Next(s: State, c: Call, fault: bool): State {
    Commit(s, Decide(s, c, fault).effect)
  }
}
