/**
 * The orchestrator of one application mutation with one durable child step, as a
 * timed client of the shared repository. Executor, verifier, pauses and the other
 * clients are parameters, and so is which of this client's audit writes fail.
 */
module Orchestrator {
  import opened Basics
  import opened ActionStatuses
  import opened Aggregation
  import opened MutationModel
  import opened MutationInvariants
  import opened MutationCalls
  import opened MutationClients
  import opened Repository
  import ClaimKeys

  // ---------------------------------------------------------------- deadlines

  /** Durations in milliseconds: operation timeout, acknowledgement window, lock lease. */
  datatype Timing = Timing(timeout: int, acknowledgement: int, lease: int)

  predicate Positive(t: Timing) {
    t.timeout >= 1 && t.acknowledgement >= 1 && t.lease >= 1
  }

  /** What the constructor insists on. */
  predicate Accepted(t: Timing) {
    Positive(t) && t.timeout + t.acknowledgement < t.lease
  }

  /** How a piece of work ends: with a value, with one of the protocol's own errors, or with another error. */
  datatype Settlement<T> = Fulfilled(value: T) | MutationFailure(code: string) | OtherFailure

  /** When the work settles, if ever, and whether it wins against a timer of the same instant. */
  datatype Work<T> = Work(after: Option<nat>, settlement: Settlement<T>, winsTies: bool)

  datatype Attempt<T> = Settled(settlement: Settlement<T>) | TimedOutWith(acknowledgement: Option<Settlement<T>>)

  predicate SettlesBy<T>(w: Work<T>, limit: int) {
    w.after.Some? && (w.after.value < limit || (w.after.value == limit && w.winsTies))
  }

  /** `withDeadline`: what the attempt yields and when. Work that has no time left is not started. */
  function WithDeadline<T>(start: int, deadline: int, acknowledgement: nat, w: Work<T>, unstarted: Option<T>): (r: (Attempt<T>, int))
    ensures start <= r.1
    ensures r.0.Settled? ==> r.1 <= deadline && r.0.settlement == w.settlement
    ensures r.0.TimedOutWith? ==> deadline <= r.1 <= (if start < deadline then deadline else start) + acknowledgement
  {
    if deadline <= start then
      (TimedOutWith(if unstarted.Some? then Some(Fulfilled(unstarted.value)) else None), start)
    else if SettlesBy(w, deadline - start) then (Settled(w.settlement), start + w.after.value)
    else if SettlesBy(w, deadline - start + acknowledgement) then
      (TimedOutWith(Some(w.settlement)), start + w.after.value)
    else (TimedOutWith(None), deadline + acknowledgement)
  }

  // ---------------------------------------------------------------- executor and verifier

  datatype ExecutionOutcome = NotStarted | CancelledBeforeEffect | Completed | PossiblyActive

  datatype Execution = Execution(accepted: bool, outcome: ExecutionOutcome, code: Option<string>)

  datatype Verification = Verification(verified: bool, unknown: bool, code: Option<string>)

  predicate IsSafe(o: ExecutionOutcome) {
    o == NotStarted || o == CancelledBeforeEffect
  }

  predicate DeclinedSafely(x: Execution) {
    !x.accepted && IsSafe(x.outcome)
  }

  predicate CompletedExecution(x: Execution) {
    x.accepted && x.outcome.Completed?
  }

  // ---------------------------------------------------------------- the stages of one mutation

  ghost predicate Dispatched(s: State, stepId: Id) {
    stepId in s.steps && s.steps[stepId].dispatch.Some?
  }

  /** The verdict of work that is still under way. */
  function OpenVerdict(status: ActionStatus, effect: ExternalEffect): Verdict {
    Verdict(status, if status == Verifying then VerificationPending else VerificationNotStarted, RecoveryNone, effect, None)
  }

  /** Parent and step have the same verdict. */
  ghost predicate BothAre(s: State, id: Id, stepId: Id, verdict: Verdict) {
    HasStep(s, id, stepId) && s.operations[id].verdict == verdict && s.steps[stepId].verdict == verdict
  }

  ghost predicate BothStarted(s: State, id: Id, stepId: Id, at: Option<int>) {
    HasStep(s, id, stepId) && s.operations[id].progress.startedAt == at && s.steps[stepId].progress.startedAt == at
  }

  /** Parent and step exist, and neither has run. */
  ghost predicate Claimed(s: State, id: Id, stepId: Id, key: Id) {
    && BothAre(s, id, stepId, OpenVerdict(Validated, EffectNotStarted)) && BothStarted(s, id, stepId, None)
    && s.operations[id].plan.operationKey == key
    && s.operations[id].token.None? && s.steps[stepId].token.None? && s.steps[stepId].dispatch.None?
  }

  /** The step, started at `started`, is under way beneath the lease. */
  ghost predicate InFlight(
    s: State, id: Id, stepId: Id, lease: Lease, status: ActionStatus, effect: ExternalEffect, started: int)
  {
    && BothAre(s, id, stepId, OpenVerdict(status, effect)) && BothStarted(s, id, stepId, Some(started)) && IsActive(status)
    && s.operations[id].plan.operationKey == lease.operationKey && s.operations[id].token == Some(lease.token)
    && Holds(s, id, lease)
  }

  /** Parent and step were finished alike, with these times; only a quarantined operation keeps its lock. */
  ghost predicate Ended(s: State, id: Id, stepId: Id, verdict: Verdict, progress: Progress) {
    && BothAre(s, id, stepId, verdict) && IsTerminal(verdict.status)
    && s.operations[id].progress == progress && s.steps[stepId].progress == progress
    && (if verdict.status == Indeterminate then HoldsLock(s, s.operations[id]) else HoldsNothing(s, id))
  }

  /** Unfinished in the given status, and still holding its lock: only recovery can settle it. */
  ghost predicate LeftOpen(s: State, id: Id, stepId: Id, status: ActionStatus, effect: ExternalEffect, started: Option<int>) {
    && BothAre(s, id, stepId, OpenVerdict(status, effect)) && BothStarted(s, id, stepId, started) && !IsTerminal(status)
    && HoldsLock(s, s.operations[id])
  }

  lemma ClaimPrepares(s: State, i: ParentClaimInput, fault: bool)
    requires Keyed(s) && LocksCurrent(s)
    ensures var d := DecideClaimParent(s, i, fault);
            var t := Commit(s, d.effect);
            var id, key := i.claim.plan.operationId, i.claim.plan.operationKey;
            && (d.reply.Created? || d.reply.Replayed? || d.reply.Failure?)
            && (d.reply.Created? ==> Claimed(t, id, i.stepId, key) && HoldsNothing(t, id) && (KeyFree(t, key) <==> KeyFree(s, key)))
  {
    ClaimCreates(s, i, fault);
    ClaimKeepsLocks(s, i, fault);
    hide ParentClaimProblem, ClaimKeys.ClaimKey, Keyed, LocksCurrent, Claimed, HoldsNothing, KeyFree, Commit, DecideClaimParent;
  }

  lemma ClaimCreates(s: State, i: ParentClaimInput, fault: bool)
    requires Keyed(s)
    ensures var d := DecideClaimParent(s, i, fault);
            && (d.reply.Created? || d.reply.Replayed? || d.reply.Failure?)
            && (d.reply.Created? ==> Claimed(Commit(s, d.effect), i.claim.plan.operationId, i.stepId, i.claim.plan.operationKey))
  {
    hide ParentClaimProblem, ClaimKeys.ClaimKey;
  }

  lemma ClaimKeepsLocks(s: State, i: ParentClaimInput, fault: bool)
    requires LocksCurrent(s)
    ensures var d := DecideClaimParent(s, i, fault);
            var t := Commit(s, d.effect);
            var id, key := i.claim.plan.operationId, i.claim.plan.operationKey;
            d.reply.Created? ==> HoldsNothing(t, id) && (KeyFree(t, key) <==> KeyFree(s, key))
  {
    hide ParentClaimProblem, ClaimKeys.ClaimKey;
  }

  lemma LeaseTaken(s: State, id: Id, stepId: Id, key: Id, now: int, expiresAt: int)
    requires LocksCurrent(s) && Claimed(s, id, stepId, key) && HoldsNothing(s, id) && now < expiresAt
    ensures var d := DecideAcquire(s, key, id, now, expiresAt);
            var t := Commit(s, d.effect);
            && Claimed(t, id, stepId, key) && (d.reply.Granted? <==> KeyFree(s, key))
            && (d.reply.Granted? ==> Holds(t, id, d.reply.lease) && d.reply.lease.operationKey == key && d.reply.lease.expiresAt == expiresAt)
            && (!d.reply.Granted? ==> d.reply == Declined && t == s)
  {
  }

  function RejectedVerdict(reason: string): Verdict {
    Verdict(Rejected, VerificationNotStarted, RecoveryNone, EffectNotStarted, Some(reason))
  }

  lemma RejectionEnds(s: State, id: Id, stepId: Id, key: Id, now: int, reason: string, fault: bool)
    requires Keyed(s) && Claimed(s, id, stepId, key) && HoldsNothing(s, id)
    ensures var d := DecideReject(s, id, stepId, now, reason, fault);
            var t := Commit(s, d.effect);
            && (d.reply == Done <==> !fault) && t.locks == s.locks
            && if fault then t == s else Ended(t, id, stepId, RejectedVerdict(reason), Progress(None, Some(now), now))
  {
    RejectionShape(s, id, stepId, key, now, reason, fault);
    hide DecideReject;
    if fault { CommitNothing(s); }
  }

  lemma RejectionShape(s: State, id: Id, stepId: Id, key: Id, now: int, reason: string, fault: bool)
    requires Keyed(s) && Claimed(s, id, stepId, key) && HoldsNothing(s, id)
    ensures var d := DecideReject(s, id, stepId, now, reason, fault);
            if fault then d == Refuse(AuditPersistenceFailed)
            else
              && d.reply == Done && d.effect.lock == KeepLocks
              && d.effect.step.Some? && d.effect.step.value.id == stepId && d.effect.step.value.parentId == id
              && d.effect.step.value.verdict == RejectedVerdict(reason) && d.effect.step.value.progress == Progress(None, Some(now), now)
              && d.effect.operation.Some? && d.effect.operation.value.plan == s.operations[id].plan
              && d.effect.operation.value.verdict == RejectedVerdict(reason) && d.effect.operation.value.progress == Progress(None, Some(now), now)
  {
    hide ChildThenParent;
  }

  /** A write under a lease fails when its audit write does, or when it is not made before the lease expires. */
  predicate Fails(fault: bool, now: int, until: int) {
    fault || now >= until
  }

  /** The effect of moving step and parent on together, field by field. */
  ghost predicate MovesTo(s: State, e: Effect, i: StepTransitionInput, verdict: Verdict, startedAt: Option<int>) {
    && HasStep(s, i.operationId, i.stepId) && e.operation.Some? && e.step.Some? && e.lock == KeepLocks
    && e.operation.value.plan == s.operations[i.operationId].plan && e.operation.value.token == Some(i.ownership.token)
    && e.operation.value.verdict == verdict && e.operation.value.progress.startedAt == startedAt
    && e.step.value.id == s.steps[i.stepId].id && e.step.value.parentId == i.operationId
    && e.step.value.verdict == verdict && e.step.value.progress.startedAt == startedAt && e.step.value.dispatch == s.steps[i.stepId].dispatch
  }

  lemma StepMoves(s: State, i: StepTransitionInput, fault: bool, verdict: Verdict, startedAt: Option<int>)
    requires HasStep(s, i.operationId, i.stepId) && Holds(s, i.operationId, i.ownership)
    requires s.operations[i.operationId].plan.operationKey == i.ownership.operationKey && s.operations[i.operationId].plan.operationId == i.operationId
    requires i.adopt || s.operations[i.operationId].token == Some(i.ownership.token)
    requires var v := s.steps[i.stepId].verdict;
             && i.expected == [v.status] && TransitionAllowed(v.status, i.status)
             && EffectChangeAllowed(v.effect, OrElse(i.effect, v.effect), s.steps[i.stepId].dispatch.Some?)
             && verdict == Verdict(i.status, OrElse(i.verification, v.verification), OrElse(i.recovery, v.recovery),
                                   OrElse(i.effect, v.effect), i.reason)
    requires !IsTerminal(i.status) && startedAt == OrElse(i.startedAt, s.steps[i.stepId].progress.startedAt)
    requires s.operations[i.operationId].progress.startedAt == s.steps[i.stepId].progress.startedAt
    ensures var d := DecideTransitionStep(s, i, fault);
            if Fails(fault, i.now, i.ownership.expiresAt) then d.reply != Done && d.effect == NoEffect
            else d.reply == Done && MovesTo(s, d.effect, i, verdict, startedAt)
  {
    hide NextEvent;
  }

  lemma ExecutionStarts(s: State, i: StepTransitionInput, key: Id, fault: bool, started: int)
    requires Keyed(s) && Claimed(s, i.operationId, i.stepId, key) && Holds(s, i.operationId, i.ownership)
    requires i.ownership.operationKey == key
    requires i.expected == [Validated] && i.status == Executing && i.adopt && i.effect.None? && i.verification.None? && i.recovery.None?
    requires i.reason.None? && i.startedAt == Some(Some(started))
    ensures var d := DecideTransitionStep(s, i, fault);
            var t := Commit(s, d.effect);
            && (d.reply == Done <==> !Fails(fault, i.now, i.ownership.expiresAt))
            && if Fails(fault, i.now, i.ownership.expiresAt) then t == s
               else InFlight(t, i.operationId, i.stepId, i.ownership, Executing, EffectNotStarted, started) && !Dispatched(t, i.stepId)
  {
    StepMoves(s, i, fault, OpenVerdict(Executing, EffectNotStarted), Some(started));
    hide DecideTransitionStep;
    if Fails(fault, i.now, i.ownership.expiresAt) { CommitNothing(s); }
  }

  lemma VerificationStarts(s: State, i: StepTransitionInput, fault: bool, started: int)
    requires Keyed(s) && InFlight(s, i.operationId, i.stepId, i.ownership, Executing, EffectNotStarted, started)
    requires i.expected == [Executing] && i.status == Verifying && !i.adopt && i.verification == Some(VerificationPending)
    requires i.recovery.None? && i.reason.None? && i.startedAt.None?
    requires i.effect == Some(if Dispatched(s, i.stepId) then EffectCompleted else EffectNotStarted)
    ensures var d := DecideTransitionStep(s, i, fault);
            var t := Commit(s, d.effect);
            && (d.reply == Done <==> !Fails(fault, i.now, i.ownership.expiresAt)) && Dispatched(t, i.stepId) == Dispatched(s, i.stepId)
            && if Fails(fault, i.now, i.ownership.expiresAt) then t == s
               else InFlight(t, i.operationId, i.stepId, i.ownership, Verifying, i.effect.value, started)
  {
    hide DecideTransitionStep;
    StepMoves(s, i, fault, OpenVerdict(Verifying, i.effect.value), Some(started));
    if Fails(fault, i.now, i.ownership.expiresAt) { CommitNothing(s); }
  }

  /**
   * Finalising under a lease succeeds exactly when the lease has not expired, the effect may be
   * classified as asked and the audit write does not fail; otherwise nothing changes.
   */
  lemma FinalizationDecides(s: State, i: StepFinalizationInput, status: ActionStatus, effect: ExternalEffect, fault: bool, started: int)
    requires Keyed(s) && InFlight(s, i.operationId, i.stepId, i.ownership, status, effect, started)
    requires status in i.expected && TransitionAllowed(status, i.status)
    requires IsTerminal(i.status) && TerminalEffectAllowed(i.status, i.effect)
    ensures var d := DecideFinalizeStep(s, i, fault);
            if i.now >= i.ownership.expiresAt then d == Refuse(StaleOwnership)
            else if !EffectChangeAllowed(effect, i.effect, Dispatched(s, i.stepId)) then d == Refuse(IllegalTransition)
            else if fault then d == Refuse(AuditPersistenceFailed)
            else d.reply == Done && Ends(s, d.effect, i)
  {
    hide ChildThenParent;
  }

  /** The verdict a finalisation asks for. */
  function AskedVerdict(i: StepFinalizationInput): Verdict {
    Verdict(i.status, i.verification, i.recovery, i.effect, i.reason)
  }

  /** A verdict the parent of one step can copy. */
  predicate Settling(v: Verdict) {
    && IsTerminal(v.status) && v.status != Cancelled
    && (v.status == Indeterminate ==> v.verification == VerificationUnknown && v.recovery == OutcomeUnknown)
    && (v.status == Succeeded ==> v.verification == Verified && v.recovery == RecoveryNone && v.reason == None)
  }

  ghost predicate Ends(s: State, e: Effect, i: StepFinalizationInput) {
    && e.step.Some? && e.operation.Some? && HasStep(s, i.operationId, i.stepId)
    && e.step.value == StepAfterFinalization(s.steps[i.stepId], i)
    && e.operation.value.plan == s.operations[i.operationId].plan
    && e.operation.value.verdict == SoleVerdict(e.step.value.verdict)
    && e.operation.value.progress == s.operations[i.operationId].progress.(completedAt := Some(i.now), updatedAt := i.now)
    && e.lock == if e.operation.value.verdict.status == Indeterminate then KeepLocks else DropLock(i.ownership.operationKey)
  }

  lemma FinalizationEnds(s: State, e: Effect, i: StepFinalizationInput, status: ActionStatus, effect: ExternalEffect, started: int)
    requires Keyed(s) && LocksCurrent(s) && InFlight(s, i.operationId, i.stepId, i.ownership, status, effect, started)
    requires Ends(s, e, i) && Settling(AskedVerdict(i))
    ensures var t := Commit(s, e);
            && Ended(t, i.operationId, i.stepId, AskedVerdict(i), Progress(Some(started), Some(i.now), i.now))
            && Dispatched(t, i.stepId) == Dispatched(s, i.stepId)
  {
    LockAfterEnding(s, e, i, status, effect, started);
    RowsAfterEnding(s, e, i, status, effect, started);
    hide Keyed, LocksCurrent, HoldsNothing, InFlight, Ends, Commit, HasStep, Dispatched;
  }

  lemma RowsAfterEnding(s: State, e: Effect, i: StepFinalizationInput, status: ActionStatus, effect: ExternalEffect, started: int)
    requires Keyed(s) && InFlight(s, i.operationId, i.stepId, i.ownership, status, effect, started)
    requires Ends(s, e, i) && Settling(AskedVerdict(i))
    ensures var t := Commit(s, e);
            && BothAre(t, i.operationId, i.stepId, AskedVerdict(i)) && Dispatched(t, i.stepId) == Dispatched(s, i.stepId)
            && t.operations[i.operationId].progress == Progress(Some(started), Some(i.now), i.now)
            && t.steps[i.stepId].progress == Progress(Some(started), Some(i.now), i.now)
  {
    hide Holds;
  }

  lemma LockAfterEnding(s: State, e: Effect, i: StepFinalizationInput, status: ActionStatus, effect: ExternalEffect, started: int)
    requires Keyed(s) && LocksCurrent(s) && InFlight(s, i.operationId, i.stepId, i.ownership, status, effect, started)
    requires Ends(s, e, i) && Settling(AskedVerdict(i))
    ensures var t := Commit(s, e);
            && i.operationId in t.operations
            && if i.status == Indeterminate then HoldsLock(t, t.operations[i.operationId]) else HoldsNothing(t, i.operationId)
  {
    var key := i.ownership.operationKey;
    assert e.lock == if i.status == Indeterminate then KeepLocks else DropLock(key);
    OnlyLock(s, i.operationId, i.ownership);
    hide LocksCurrent;
  }

  lemma OnlyLock(s: State, id: Id, lease: Lease)
    requires LocksCurrent(s) && id in s.operations && s.operations[id].plan.operationKey == lease.operationKey
    ensures forall k :: k in s.locks && s.locks[k].owner == id ==> k == lease.operationKey
  {
  }

  // ---------------------------------------------------------------- while the work runs

  /** A dispatch request of the executor. */
  lemma DispatchInFlight(s: State, i: StepDispatchInput, fault: bool, stepId: Id, lease: Lease, status: ActionStatus, effect: ExternalEffect, started: int)
    requires Keyed(s) && OneChild(s) && InFlight(s, i.operationId, stepId, lease, status, effect, started)
    ensures var t := Commit(s, DecideAuthorizeStep(s, i, fault).effect);
            InFlight(t, i.operationId, stepId, lease, status, effect, started) && (Dispatched(s, stepId) ==> Dispatched(t, stepId))
  {
    hide NextEvent;
  }

  /** The same through the operation, which passes the request on to its step. */
  lemma OperationDispatchInFlight(s: State, i: DispatchInput, fault: bool, stepId: Id, lease: Lease, status: ActionStatus, effect: ExternalEffect, started: int)
    requires Keyed(s) && OneChild(s) && InFlight(s, i.operationId, stepId, lease, status, effect, started)
    ensures var t := Commit(s, DecideAuthorizeOperation(s, i, fault).effect);
            InFlight(t, i.operationId, stepId, lease, status, effect, started) && (Dispatched(s, stepId) ==> Dispatched(t, stepId))
  {
    hide DecideAuthorizeStep, Commit, Keyed, OneChild, Holds;
    assert stepId in StepsOf(s, i.operationId);
    CommitNothing(s);
    if DecideAuthorizeOperation(s, i, fault).effect != NoEffect {
      var id :| id in StepsOf(s, i.operationId)
                && DecideAuthorizeOperation(s, i, fault) == DecideAuthorizeStep(s, ChildDispatch(i, s.steps[id]), fault);
      DispatchInFlight(s, ChildDispatch(i, s.steps[id]), fault, stepId, lease, status, effect, started);
    }
  }

  /** A dispatch request for the operation: for its step, or for the operation itself, as the Docker executor makes it. */
  predicate AsksDispatch(c: Call, id: Id) {
    || (c.AuthorizeStep? && c.stepDispatch.operationId == id)
    || (c.AuthorizeOperation? && c.dispatch.operationId == id)
  }

  ghost predicate SomeAsksDispatch(requests: seq<Request>, id: Id) {
    exists n :: 0 <= n < |requests| && AsksDispatch(requests[n].call, id)
  }

  lemma UndisturbedInFlight(s: State, t: State, id: Id, stepId: Id, lease: Lease, status: ActionStatus, effect: ExternalEffect, started: int)
    requires Undisturbed(s, t, id) && InFlight(s, id, stepId, lease, status, effect, started)
    ensures InFlight(t, id, stepId, lease, status, effect, started) && Dispatched(t, stepId) == Dispatched(s, stepId)
  {
  }

  lemma InFlightGuarded(s: State, id: Id, stepId: Id, lease: Lease, status: ActionStatus, effect: ExternalEffect, started: int)
    requires LocksCurrent(s) && InFlight(s, id, stepId, lease, status, effect, started)
    ensures Guarded(s, id, Some(lease))
  {
  }

  /** Others at work for a while, and the executor asking for dispatch if `dispatching`. */
  method WhileRunning(
    repo: MutationRepository, requests: seq<Request>, dispatching: bool, id: Id, stepId: Id, lease: Lease,
    ghost status: ActionStatus, ghost effect: ExternalEffect, ghost started: int)
    requires repo.Valid() && Inv(repo.View()) && InFlight(repo.View(), id, stepId, lease, status, effect, started)
    modifies repo
    ensures repo.Valid() && Inv(repo.View()) && InFlight(repo.View(), id, stepId, lease, status, effect, started)
    ensures old(Dispatched(repo.View(), stepId)) ==> Dispatched(repo.View(), stepId)
    ensures Dispatched(repo.View(), stepId) && !old(Dispatched(repo.View(), stepId)) ==> dispatching && SomeAsksDispatch(requests, id)
  {
    hide Structural, LocksCurrent, Quarantined, ParentsAgree, DispatchesConsistent, LogsNumbered, DispatchesLogged, PathsLegal, HasStep, Holds, InFlight, Dispatched;
    for n := 0 to |requests|
      invariant repo.Valid() && Inv(repo.View()) && InFlight(repo.View(), id, stepId, lease, status, effect, started)
      invariant old(Dispatched(repo.View(), stepId)) ==> Dispatched(repo.View(), stepId)
      invariant Dispatched(repo.View(), stepId) && !old(Dispatched(repo.View(), stepId)) ==> dispatching && SomeAsksDispatch(requests, id)
    {
      if dispatching && AsksDispatch(requests[n].call, id) {
        RequestDispatch(repo, requests[n], id, stepId, lease, status, effect, started);
      } else {
        ghost var s := repo.View();
        InFlightGuarded(s, id, stepId, lease, status, effect, started);
        ServeOther(repo, requests[n], id, Some(lease));
        UndisturbedInFlight(s, repo.View(), id, stepId, lease, status, effect, started);
      }
    }
  }

  method RequestDispatch(
    repo: MutationRepository, request: Request, ghost id: Id, ghost stepId: Id, ghost lease: Lease, ghost status: ActionStatus,
    ghost effect: ExternalEffect, ghost started: int)
    requires repo.Valid() && Inv(repo.View()) && AsksDispatch(request.call, id)
    requires InFlight(repo.View(), id, stepId, lease, status, effect, started)
    modifies repo
    ensures repo.Valid() && Inv(repo.View()) && InFlight(repo.View(), id, stepId, lease, status, effect, started)
    ensures old(Dispatched(repo.View(), stepId)) ==> Dispatched(repo.View(), stepId)
  {
    hide Keyed, OneChild, LocksCurrent, Quarantined, ParentsAgree, DispatchesConsistent, LogsNumbered, DispatchesLogged, PathsLegal, InFlight, Commit, Dispatched,
         DecideAuthorizeStep, DecideAuthorizeOperation;
    repo.failNextAudit := request.failAudit;
    CallKeepsInv(repo.View(), request.call, request.failAudit);
    match request.call {
      case AuthorizeStep(i) =>
        DispatchInFlight(repo.View(), i, request.failAudit, stepId, lease, status, effect, started);
        var _ := repo.AuthorizeStepDispatch(i);
      case AuthorizeOperation(i) =>
        OperationDispatchInFlight(repo.View(), i, request.failAudit, stepId, lease, status, effect, started);
        var _ := repo.AuthorizeDispatch(i);
    }
  }

  // ---------------------------------------------------------------- what is promised

  /** Time that passes around the orchestrator's own calls. */
  datatype Pauses = Pauses(beforeExecutor: nat, afterExecutor: nat, beforeVerifier: nat, afterVerifier: nat)

  /** What the executor and the other clients ask of the repository, and when. */
  datatype Traffic = Traffic(
    afterClaim: seq<Request>, afterLease: seq<Request>, duringExecutor: seq<Request>, afterExecutor: seq<Request>,
    afterReading: seq<Request>, duringVerifier: seq<Request>, afterVerifier: seq<Request>)

  /** Which of the orchestrator's own audit writes fail. */
  datatype Faults = Faults(replay: bool, claim: bool, reject: bool, begin: bool, conclude: bool, verify: bool, finish: bool)

  /** Everything outside the orchestrator that decides how a performance goes. */
  datatype Setting = Setting(
    timing: Timing, executor: Work<Execution>, verifier: Work<Verification>, pauses: Pauses, traffic: Traffic, faults: Faults)

  /** `Stuck` leaves the operation in the given status with its lock; `Unrejected` validated without one. */
  datatype Report =
    | Refused(error: MutationError)
    | ReplayedParent(operationId: Id)
    | InProgress
    | Unrejected
    | Finished(status: ActionStatus)
    | Stuck(status: ActionStatus)

  /** What the executor's attempt yields, and when. */
  function Executed(start: int, deadline: int, x: Setting): (Attempt<Execution>, int)
    requires Positive(x.timing)
  {
    WithDeadline(start, deadline, x.timing.acknowledgement, x.executor, Some(Execution(false, NotStarted, None)))
  }

  /** What the verifier's attempt yields after a completed execution, and when. */
  function Checked(start: int, deadline: int, x: Setting): (Attempt<Verification>, int)
    requires Positive(x.timing)
  {
    WithDeadline(Executed(start, deadline, x).1 + x.pauses.afterExecutor + x.pauses.beforeVerifier, deadline,
                 x.timing.acknowledgement, x.verifier, None)
  }

  predicate RanToCompletion(attempt: Attempt<Execution>) {
    attempt.Settled? && attempt.settlement.Fulfilled? && CompletedExecution(attempt.settlement.value)
  }

  /** The executor answered in time with an outcome that is neither completed nor safely declined. */
  predicate RanUncertainly(attempt: Attempt<Execution>) {
    && attempt.Settled? && attempt.settlement.Fulfilled?
    && !CompletedExecution(attempt.settlement.value) && !DeclinedSafely(attempt.settlement.value)
  }

  predicate OwnError<T>(attempt: Attempt<T>) {
    attempt.Settled? && attempt.settlement.MutationFailure?
  }

  /** When the last write of a performance that holds the lease happens. */
  function FinishTime(start: int, deadline: int, x: Setting): int
    requires Positive(x.timing)
  {
    if RanToCompletion(Executed(start, deadline, x).0)
    then Checked(start, deadline, x).1 + x.pauses.afterVerifier
    else Executed(start, deadline, x).1 + x.pauses.afterExecutor
  }

  /** Which of the orchestrator's writes fail when its lease expires at `until`. */
  function Failing(start: int, deadline: int, until: int, x: Setting): Faults
    requires Positive(x.timing)
  {
    var read := Executed(start, deadline, x).1 + x.pauses.afterExecutor;
    x.faults.(begin := Fails(x.faults.begin, start, until),
              conclude := Fails(x.faults.conclude, read, until),
              verify := Fails(x.faults.verify, read, until),
              finish := Fails(x.faults.finish, Checked(start, deadline, x).1 + x.pauses.afterVerifier, until))
  }

  /** The status a performance that holds the lease leaves open, if any. */
  function Remains(executed: Attempt<Execution>, checked: Attempt<Verification>, dispatched: bool, f: Faults): Option<ActionStatus> {
    if f.begin then Some(Validated)
    else if RanToCompletion(executed) then
      if f.verify then Some(Executing)
      else if OwnError(checked) || f.finish then Some(Verifying)
      else None
    else if OwnError(executed) || (RanUncertainly(executed) && !dispatched) || f.conclude then Some(Executing)
    else None
  }

  function OrDefault(code: Option<string>, default: string): Option<string> {
    if code.Some? then code else Some(default)
  }

  /** The outcome nobody can vouch for. */
  function UncertainVerdict(effect: ExternalEffect, reason: Option<string>): Verdict {
    Verdict(Indeterminate, VerificationUnknown, OutcomeUnknown, effect, reason)
  }

  function FailedVerdict(effect: ExternalEffect, reason: Option<string>): Verdict {
    Verdict(Failed, VerificationFailed, RecoveryNone, effect, reason)
  }

  /** After an executor that ran out of time. */
  function TimedOutVerdict(acknowledgement: Option<Settlement<Execution>>, dispatched: bool): Verdict {
    var answered := acknowledgement.Some? && acknowledgement.value.Fulfilled?;
    if answered && IsSafe(acknowledgement.value.value.outcome) && !dispatched
    then Verdict(TimedOut, VerificationUnknown, RecoveryNone, EffectNotStarted, Some("OPERATION_TIMED_OUT"))
    else UncertainVerdict(if dispatched then EffectPossiblyActive else EffectNotStarted,
                          OrDefault(if answered then acknowledgement.value.value.code else None, "MUTATION_UNCERTAIN"))
  }

  /** After an executor that threw. */
  function ThrewVerdict(dispatched: bool): Verdict {
    if dispatched then UncertainVerdict(EffectPossiblyActive, Some("MUTATION_UNCERTAIN"))
    else FailedVerdict(EffectNotStarted, Some("EXECUTION_FAILED"))
  }

  /** After an executor that answered, and not with a completed execution. */
  function DeclinedVerdict(e: Execution): Verdict {
    if DeclinedSafely(e) then FailedVerdict(EffectNotStarted, OrDefault(e.code, "EXECUTION_REJECTED"))
    else UncertainVerdict(EffectPossiblyActive, OrDefault(e.code, "MUTATION_UNCERTAIN"))
  }

  /** After the verifier. */
  function CheckedVerdict(checked: Attempt<Verification>, effect: ExternalEffect): Verdict {
    match checked
    case TimedOutWith(_) => UncertainVerdict(effect, Some("OPERATION_TIMED_OUT"))
    case Settled(Fulfilled(v)) =>
      if v.verified then Verdict(Succeeded, Verified, RecoveryNone, effect, None)
      else if v.unknown then UncertainVerdict(effect, OrDefault(v.code, "VERIFICATION_FAILED"))
      else FailedVerdict(effect, OrDefault(v.code, "VERIFICATION_FAILED"))
    case Settled(_) => UncertainVerdict(effect, Some("POST_ACTION_VERIFICATION_FAILED"))
  }

  /** The verdict of a performance that finishes under its lease. */
  function FinalVerdict(executed: Attempt<Execution>, checked: Attempt<Verification>, dispatched: bool): Verdict {
    if RanToCompletion(executed) then CheckedVerdict(checked, if dispatched then EffectCompleted else EffectNotStarted)
    else match executed
      case TimedOutWith(acknowledgement) => TimedOutVerdict(acknowledgement, dispatched)
      case Settled(Fulfilled(e)) => DeclinedVerdict(e)
      case Settled(_) => ThrewVerdict(dispatched)
  }

  /** What is reported, given executor, verifier, the dispatch mark and the failing writes. */
  predicate RunOutcome(r: Report, executed: Attempt<Execution>, checked: Attempt<Verification>, dispatched: bool, f: Faults) {
    match Remains(executed, checked, dispatched, f)
    case Some(status) => r == Stuck(status)
    case None => r == Finished(FinalVerdict(executed, checked, dispatched).status)
  }

  // ---------------------------------------------------------------- what a final verdict says

  /** The executor answered in time that it was accepted and completed. */
  predicate SaidCompleted(a: Attempt<Execution>) {
    a.Settled? && a.settlement.Fulfilled? && a.settlement.value.accepted && a.settlement.value.outcome == Completed
  }

  /** The executor answered in time that it was not accepted and that nothing was started. */
  predicate SaidNothingStarted(a: Attempt<Execution>) {
    && a.Settled? && a.settlement.Fulfilled? && !a.settlement.value.accepted
    && (a.settlement.value.outcome == NotStarted || a.settlement.value.outcome == CancelledBeforeEffect)
  }

  /** The executor ran out of time, and acknowledged that nothing was started. */
  predicate AcknowledgedNothingStarted(a: Attempt<Execution>) {
    && a.TimedOutWith? && a.acknowledgement.Some? && a.acknowledgement.value.Fulfilled?
    && (a.acknowledgement.value.value.outcome == NotStarted || a.acknowledgement.value.value.outcome == CancelledBeforeEffect)
  }

  predicate Answered<T>(a: Attempt<T>) {
    a.Settled? && a.settlement.Fulfilled?
  }

  predicate SaidVerified(a: Attempt<Verification>) {
    Answered(a) && a.settlement.value.verified
  }

  predicate SaidNotVerified(a: Attempt<Verification>) {
    Answered(a) && !a.settlement.value.verified && !a.settlement.value.unknown
  }

  /** What each final status says of executor, verifier and dispatch mark. */
  predicate StatusTells(status: ActionStatus, executed: Attempt<Execution>, checked: Attempt<Verification>, dispatched: bool) {
    && (status == Succeeded <==> SaidCompleted(executed) && SaidVerified(checked))
    && (status == TimedOut <==> !dispatched && AcknowledgedNothingStarted(executed))
    && (status == Failed <==>
          || (SaidCompleted(executed) && SaidNotVerified(checked)) || SaidNothingStarted(executed)
          || (executed.Settled? && !Answered(executed) && !dispatched))
    && status in {Succeeded, TimedOut, Failed, Indeterminate}
  }

  /** What effect, verification and recovery state say, given the status. */
  predicate EffectTells(v: Verdict, executed: Attempt<Execution>, dispatched: bool) {
    && (v.effect == EffectCompleted <==> dispatched && SaidCompleted(executed))
    && (v.effect == EffectPossiblyActive <==>
          v.status == Indeterminate && !SaidCompleted(executed) && (dispatched || Answered(executed)))
    && (v.verification == Verified <==> v.status == Succeeded) && (v.verification == VerificationFailed <==> v.status == Failed)
    && v.verification in {Verified, VerificationFailed, VerificationUnknown}
    && v.recovery == (if v.status == Indeterminate then OutcomeUnknown else RecoveryNone)
  }

  predicate VerdictTells(v: Verdict, executed: Attempt<Execution>, checked: Attempt<Verification>, dispatched: bool) {
    StatusTells(v.status, executed, checked, dispatched) && EffectTells(v, executed, dispatched)
  }

  /** The reason is the code that executor or verifier gave, and otherwise names what happened. */
  predicate ReasonTells(v: Verdict, executed: Attempt<Execution>, checked: Attempt<Verification>) {
    && (v.reason.None? <==> v.status == Succeeded)
    && (SaidCompleted(executed) && Answered(checked) && v.status != Succeeded ==>
          v.reason == if checked.settlement.value.code.Some? then checked.settlement.value.code else Some("VERIFICATION_FAILED"))
    && (SaidCompleted(executed) && checked.TimedOutWith? ==> v.reason == Some("OPERATION_TIMED_OUT"))
    && (SaidCompleted(executed) && checked.Settled? && !Answered(checked) ==> v.reason == Some("POST_ACTION_VERIFICATION_FAILED"))
    && (v.status == TimedOut ==> v.reason == Some("OPERATION_TIMED_OUT"))
    && (Answered(executed) && !SaidCompleted(executed) ==>
          v.reason == if executed.settlement.value.code.Some? then executed.settlement.value.code
                      else Some(if v.status == Failed then "EXECUTION_REJECTED" else "MUTATION_UNCERTAIN"))
    && (executed.Settled? && !Answered(executed) ==> v.reason == Some(if v.status == Failed then "EXECUTION_FAILED" else "MUTATION_UNCERTAIN"))
    && (executed.TimedOutWith? && v.status == Indeterminate ==>
          if executed.acknowledgement.Some? && executed.acknowledgement.value.Fulfilled? && executed.acknowledgement.value.value.code.Some?
          then v.reason == executed.acknowledgement.value.value.code else v.reason == Some("MUTATION_UNCERTAIN"))
  }

  lemma FinalVerdictMeans(executed: Attempt<Execution>, checked: Attempt<Verification>, dispatched: bool)
    ensures VerdictTells(FinalVerdict(executed, checked, dispatched), executed, checked, dispatched)
    ensures ReasonTells(FinalVerdict(executed, checked, dispatched), executed, checked)
  {
    StatusMeans(executed, checked, dispatched);
    EffectMeans(executed, checked, dispatched);
    ReasonMeans(executed, checked, dispatched);
    hide FinalVerdict, ReasonTells;
  }

  lemma StatusMeans(executed: Attempt<Execution>, checked: Attempt<Verification>, dispatched: bool)
    ensures StatusTells(FinalVerdict(executed, checked, dispatched).status, executed, checked, dispatched)
  {
  }

  lemma EffectMeans(executed: Attempt<Execution>, checked: Attempt<Verification>, dispatched: bool)
    ensures EffectTells(FinalVerdict(executed, checked, dispatched), executed, dispatched)
  {
  }

  lemma ReasonMeans(executed: Attempt<Execution>, checked: Attempt<Verification>, dispatched: bool)
    ensures ReasonTells(FinalVerdict(executed, checked, dispatched), executed, checked)
  {
  }

  /**
   * A finished performance, as stored: what the rows of step and parent say about everything that
   * happened. `seen` is the dispatch mark as the orchestrator read it before its last write.
   */
  ghost predicate Recorded(
    s: State, id: Id, stepId: Id, status: ActionStatus, executed: Attempt<Execution>, checked: Attempt<Verification>, progress: Progress, seen: bool)
  {
    && stepId in s.steps && s.steps[stepId].verdict.status == status
    && Ended(s, id, stepId, s.steps[stepId].verdict, progress)
    && VerdictTells(s.steps[stepId].verdict, executed, checked, seen)
    && ReasonTells(s.steps[stepId].verdict, executed, checked)
  }

  lemma EndedRecorded(
    s: State, id: Id, stepId: Id, executed: Attempt<Execution>, checked: Attempt<Verification>, progress: Progress, seen: bool)
    requires Ended(s, id, stepId, FinalVerdict(executed, checked, seen), progress)
    ensures Recorded(s, id, stepId, FinalVerdict(executed, checked, seen).status, executed, checked, progress, seen)
  {
    FinalVerdictMeans(executed, checked, seen);
    hide FinalVerdict, VerdictTells, ReasonTells;
  }

  /**
   * The mark read is the mark stored, but for one case: an executor that neither settled nor acknowledged
   * gets its dispatch authorised between the reading and the last write.
   */
  ghost predicate SeenBy(s: State, job: Job, executed: Attempt<Execution>, gap: seq<Request>, seen: bool) {
    && job.stepId in s.steps && (seen ==> s.steps[job.stepId].dispatch.Some?)
    && (s.steps[job.stepId].dispatch.Some? && !seen ==> executed == TimedOutWith(None) && SomeAsksDispatch(gap, job.id))
  }

  /** An unfinished performance, as stored. */
  ghost predicate Stranded(s: State, id: Id, stepId: Id, status: ActionStatus, started: int) {
    LeftOpen(s, id, stepId, status,
             if status == Verifying && stepId in s.steps && s.steps[stepId].dispatch.Some? then EffectCompleted else EffectNotStarted,
             if status == Validated then None else Some(started))
  }

  /**
   * After a dispatch without a completed execution an indeterminate operation records that its effect may be
   * active exactly when the dispatch was seen; what fails or times out before any dispatch records that nothing started.
   */
  lemma EffectIsRecorded(
    s: State, job: Job, status: ActionStatus, executed: Attempt<Execution>, checked: Attempt<Verification>, progress: Progress,
    gap: seq<Request>, seen: bool)
    requires Recorded(s, job.id, job.stepId, status, executed, checked, progress, seen) && SeenBy(s, job, executed, gap, seen)
    ensures status == Indeterminate && s.steps[job.stepId].dispatch.Some? && !SaidCompleted(executed) ==>
              && s.operations[job.id].verdict.effect == s.steps[job.stepId].verdict.effect
              && (s.steps[job.stepId].verdict.effect == EffectPossiblyActive <==> seen)
              && (executed != TimedOutWith(None) || !SomeAsksDispatch(gap, job.id) ==> seen)
    ensures status in {Failed, TimedOut} && s.steps[job.stepId].dispatch.None? ==>
              s.steps[job.stepId].verdict.effect == EffectNotStarted && s.operations[job.id].verdict.effect == EffectNotStarted
  {
  }

  function Total(p: Pauses): nat {
    p.beforeExecutor + p.afterExecutor + p.beforeVerifier + p.afterVerifier
  }

  /** The pauses together stay below the slack the constructor leaves. */
  predicate WithinSlack(x: Setting) {
    Total(x.pauses) < x.timing.lease - x.timing.timeout - x.timing.acknowledgement
  }

  /** Whatever executor and verifier do, the last write comes before the lease expires. */
  lemma LeaseOutlivesWork(now: int, x: Setting)
    requires Positive(x.timing)
    ensures now <= FinishTime(now + x.pauses.beforeExecutor, now + x.timing.timeout, x)
                <= now + x.timing.timeout + x.timing.acknowledgement + Total(x.pauses)
    ensures WithinSlack(x) ==> FinishTime(now + x.pauses.beforeExecutor, now + x.timing.timeout, x) < now + x.timing.lease
  {
  }

  /** Within the slack no write is late: the only ones that fail are those whose audit write does. */
  lemma NothingIsLate(now: int, x: Setting)
    requires Positive(x.timing) && WithinSlack(x)
    ensures Failing(now + x.pauses.beforeExecutor, now + x.timing.timeout, now + x.timing.lease, x) == x.faults
  {
  }

  /** Whatever the pauses, an operation that is not left open was finished before its lease expired. */
  lemma FinishedBeforeExpiry(start: int, deadline: int, until: int, x: Setting, dispatched: bool)
    requires Positive(x.timing)
    requires Remains(Executed(start, deadline, x).0, Checked(start, deadline, x).0, dispatched, Failing(start, deadline, until, x)).None?
    ensures FinishTime(start, deadline, x) < until
  {
    RunParts(start, deadline, until, x);
    hide Failing, FinishTime, Executed, Checked, WithDeadline;
  }

  /** Without pauses, no executor and verifier make the last write come too late. */
  ghost predicate AlwaysInTime(timing: Timing, now: int)
    requires Positive(timing)
  {
    forall x: Setting :: x.timing == timing && Total(x.pauses) == 0 ==> FinishTime(now, now + timing.timeout, x) < now + timing.lease
  }

  /** An executor that never settles takes the whole timeout and acknowledgement window. */
  lemma NeverSettles(now: int, x: Setting)
    requires Positive(x.timing) && x.executor.after.None? && Total(x.pauses) == 0
    ensures FinishTime(now, now + x.timing.timeout, x) == now + x.timing.timeout + x.timing.acknowledgement
  {
  }

  lemma InTimeWithoutPauses(x: Setting, now: int)
    requires Accepted(x.timing) && Total(x.pauses) == 0
    ensures FinishTime(now, now + x.timing.timeout, x) < now + x.timing.lease
  {
    hide FinishTime;
    LeaseOutlivesWork(now, x);
  }

  /** With instant persistence the bound the constructor insists on is exactly what this takes. */
  lemma ConstructorBoundIsExact(timing: Timing, now: int)
    requires Positive(timing)
    ensures AlwaysInTime(timing, now) <==> Accepted(timing)
  {
    hide FinishTime, Total;
    if Accepted(timing) {
      forall x: Setting | x.timing == timing && Total(x.pauses) == 0
        ensures FinishTime(now, now + timing.timeout, x) < now + timing.lease
      {
        InTimeWithoutPauses(x, now);
      }
    } else {
      var never := NeverSettling(timing);
      NeverSettles(now, never);
      assert Total(never.pauses) == 0;
    }
  }

  function NeverSettling(timing: Timing): (x: Setting)
    ensures x.timing == timing && x.executor.after.None? && Total(x.pauses) == 0
  {
    Setting(timing, Work(None, OtherFailure, false), Work(None, OtherFailure, false), Pauses(0, 0, 0, 0),
            Traffic([], [], [], [], [], [], []), Faults(false, false, false, false, false, false, false))
  }

  // ---------------------------------------------------------------- the orchestrator

  datatype Job = Job(id: Id, stepId: Id, lease: Lease, started: int)

  ghost predicate Flying(repo: MutationRepository, job: Job, status: ActionStatus, effect: ExternalEffect)
    reads repo
  {
    repo.Valid() && Inv(repo.View()) && InFlight(repo.View(), job.id, job.stepId, job.lease, status, effect, job.started)
  }

  /** Ended with this verdict by a write at `now`, or stuck where it was. */
  ghost predicate Concluded(s: State, job: Job, r: Report, verdict: Verdict, from: ActionStatus, current: ExternalEffect, now: int, stuck: bool) {
    if stuck then r == Stuck(from) && LeftOpen(s, job.id, job.stepId, from, current, Some(job.started))
    else r == Finished(verdict.status) && Ended(s, job.id, job.stepId, verdict, Progress(Some(job.started), Some(now), now))
  }

  /** The final write, made at `now`, whose audit write fails if `fault`. */
  method Finalize(repo: MutationRepository, job: Job, from: ActionStatus, ghost current: ExternalEffect, verdict: Verdict, now: int, fault: bool)
    returns (r: Report)
    requires Flying(repo, job, from, current)
    requires TransitionAllowed(from, verdict.status) && Settling(verdict) && TerminalEffectAllowed(verdict.status, verdict.effect)
    modifies repo
    ensures repo.Valid() && Inv(repo.View())
    ensures Dispatched(repo.View(), job.stepId) == old(Dispatched(repo.View(), job.stepId))
    ensures Concluded(repo.View(), job, r, verdict, from, current, now,
                      Fails(fault, now, job.lease.expiresAt) || !EffectChangeAllowed(current, verdict.effect, Dispatched(repo.View(), job.stepId)))
  {
    hide Keyed, OneChild, LocksCurrent, Quarantined, ParentsAgree, DispatchesConsistent, LogsNumbered, DispatchesLogged, PathsLegal,
         Commit, DecideFinalizeStep, LeftOpen, InFlight, Ends, Ended, Dispatched, HasStep;
    var expected := if verdict.status == Succeeded then [Verifying] else [Executing, Verifying];
    var i := StepFinalizationInput(job.id, job.stepId, expected, verdict.status, now, job.lease, verdict.verification, verdict.recovery,
                                   verdict.effect, verdict.reason);
    ghost var s := repo.View();
    FlightLeftOpen(s, job, from, current);
    FinalizationDecides(s, i, from, current, fault, job.started);
    ghost var d := DecideFinalizeStep(s, i, fault);
    CallKeepsInv(s, FinalizeStep(i), fault);
    repo.failNextAudit := fault;
    var reply := repo.FinalizeStepAndParent(i, false);
    if reply == Done {
      FinalizationEnds(s, d.effect, i, from, current, job.started);
      r := Finished(verdict.status);
    } else {
      CommitNothing(s);
      r := Stuck(from);
    }
  }

  lemma FlightLeftOpen(s: State, job: Job, status: ActionStatus, effect: ExternalEffect)
    requires Keyed(s) && InFlight(s, job.id, job.stepId, job.lease, status, effect, job.started)
    ensures LeftOpen(s, job.id, job.stepId, status, effect, Some(job.started)) && (status == Executing || status == Verifying)
  {
  }

  /** Verification, from the moment the step is VERIFYING. */
  method Verify(repo: MutationRepository, job: Job, effect: ExternalEffect, deadline: int, start: int, x: Setting) returns (r: Report)
    requires Flying(repo, job, Verifying, effect) && Accepted(x.timing) && effect != EffectPossiblyActive
    modifies repo
    ensures repo.Valid() && Inv(repo.View())
    ensures Dispatched(repo.View(), job.stepId) == old(Dispatched(repo.View(), job.stepId))
    ensures var checked := WithDeadline(start, deadline, x.timing.acknowledgement, x.verifier, None);
            var now := checked.1 + x.pauses.afterVerifier;
            Concluded(repo.View(), job, r, CheckedVerdict(checked.0, effect), Verifying, effect, now,
                      OwnError(checked.0) || Fails(x.faults.finish, now, job.lease.expiresAt))
  {
    hide Keyed, OneChild, LocksCurrent, Quarantined, ParentsAgree, DispatchesConsistent, LogsNumbered, DispatchesLogged, PathsLegal,
         InFlight, Ended, Dispatched, LeftOpen, WithDeadline, Fails, CheckedVerdict;
    var (attempt, end) := WithDeadline(start, deadline, x.timing.acknowledgement, x.verifier, None);
    WhileRunning(repo, x.traffic.duringVerifier, false, job.id, job.stepId, job.lease, Verifying, effect, job.started);
    WhileRunning(repo, x.traffic.afterVerifier, false, job.id, job.stepId, job.lease, Verifying, effect, job.started);
    if OwnError(attempt) {
      FlightLeftOpen(repo.View(), job, Verifying, effect);
      return Stuck(Verifying);
    }
    r := Conclude(repo, job, effect, attempt, end + x.pauses.afterVerifier, x.faults.finish);
  }

  /** The last write after a verifier that did not throw one of the protocol's own errors. */
  method Conclude(repo: MutationRepository, job: Job, effect: ExternalEffect, attempt: Attempt<Verification>, now: int, fault: bool)
    returns (r: Report)
    requires Flying(repo, job, Verifying, effect) && effect != EffectPossiblyActive && !OwnError(attempt)
    modifies repo
    ensures repo.Valid() && Inv(repo.View())
    ensures Dispatched(repo.View(), job.stepId) == old(Dispatched(repo.View(), job.stepId))
    ensures Concluded(repo.View(), job, r, CheckedVerdict(attempt, effect), Verifying, effect, now, Fails(fault, now, job.lease.expiresAt))
  {
    hide Inv, Structural, InFlight, Ended, Dispatched, LeftOpen, Fails;
    var verdict;
    match attempt {
      case TimedOutWith(_) => verdict := UncertainVerdict(effect, Some("OPERATION_TIMED_OUT"));
      case Settled(Fulfilled(v)) =>
        var code := OrDefault(v.code, "VERIFICATION_FAILED");
        verdict := if v.verified then Verdict(Succeeded, Verified, RecoveryNone, effect, None)
                   else if v.unknown then UncertainVerdict(effect, code) else FailedVerdict(effect, code);
      case Settled(_) => verdict := UncertainVerdict(effect, Some("POST_ACTION_VERIFICATION_FAILED"));
    }
    CheckSettles(attempt, effect);
    hide CheckedVerdict;
    r := Finalize(repo, job, Verifying, effect, verdict, now, fault);
  }

  lemma CheckSettles(checked: Attempt<Verification>, effect: ExternalEffect)
    requires effect != EffectPossiblyActive
    ensures var v := CheckedVerdict(checked, effect);
            && TransitionAllowed(Verifying, v.status) && Settling(v) && TerminalEffectAllowed(v.status, v.effect) && v.effect == effect
  {
  }

  /** The executor ran out of time: only a safe acknowledgement of an undispatched step is a plain timeout. */
  method ExecutionTimedOut(
    repo: MutationRepository, job: Job, acknowledgement: Option<Settlement<Execution>>, now: int, gap: seq<Request>, fault: bool)
    returns (r: Report, ghost seen: bool)
    requires Flying(repo, job, Executing, EffectNotStarted)
    modifies repo
    ensures repo.Valid() && Inv(repo.View()) && (seen ==> Dispatched(repo.View(), job.stepId))
    ensures Dispatched(repo.View(), job.stepId) && !seen ==> acknowledgement.None? && SomeAsksDispatch(gap, job.id)
    ensures Concluded(repo.View(), job, r, TimedOutVerdict(acknowledgement, seen), Executing, EffectNotStarted, now,
                      Fails(fault, now, job.lease.expiresAt))
  {
    hide Inv, Structural, Ended, LeftOpen, InFlight, Dispatched, HasStep;
    StepInFlight(repo.View(), job, Executing, EffectNotStarted);
    var dispatched := repo.steps[job.stepId].dispatch.Some?;
    seen := dispatched;
    WhileRunning(repo, gap, acknowledgement.None?, job.id, job.stepId, job.lease, Executing, EffectNotStarted, job.started);
    var answered := acknowledgement.Some? && acknowledgement.value.Fulfilled?;
    if answered && IsSafe(acknowledgement.value.value.outcome) && !dispatched {
      r := Finalize(repo, job, Executing, EffectNotStarted,
                    Verdict(TimedOut, VerificationUnknown, RecoveryNone, EffectNotStarted, Some("OPERATION_TIMED_OUT")), now, fault);
    } else {
      var code := OrDefault(if answered then acknowledgement.value.value.code else None, "MUTATION_UNCERTAIN");
      r := Finalize(repo, job, Executing, EffectNotStarted,
                    UncertainVerdict(if dispatched then EffectPossiblyActive else EffectNotStarted, code), now, fault);
    }
  }

  /** The executor threw something that is not one of the protocol's own errors. */
  method ExecutionThrew(repo: MutationRepository, job: Job, now: int, gap: seq<Request>, fault: bool) returns (r: Report)
    requires Flying(repo, job, Executing, EffectNotStarted)
    modifies repo
    ensures repo.Valid() && Inv(repo.View())
    ensures Concluded(repo.View(), job, r, ThrewVerdict(Dispatched(repo.View(), job.stepId)), Executing, EffectNotStarted, now,
                      Fails(fault, now, job.lease.expiresAt))
  {
    hide Inv, Structural, Ended, LeftOpen, InFlight, Dispatched, HasStep;
    StepInFlight(repo.View(), job, Executing, EffectNotStarted);
    var dispatched := repo.steps[job.stepId].dispatch.Some?;
    WhileRunning(repo, gap, false, job.id, job.stepId, job.lease, Executing, EffectNotStarted, job.started);
    if dispatched {
      r := Finalize(repo, job, Executing, EffectNotStarted, UncertainVerdict(EffectPossiblyActive, Some("MUTATION_UNCERTAIN")), now, fault);
    } else {
      r := Finalize(repo, job, Executing, EffectNotStarted, FailedVerdict(EffectNotStarted, Some("EXECUTION_FAILED")), now, fault);
    }
  }

  /** The executor answered, and not with a completed execution. */
  method ExecutionDeclined(repo: MutationRepository, job: Job, e: Execution, now: int, fault: bool) returns (r: Report)
    requires Flying(repo, job, Executing, EffectNotStarted) && !CompletedExecution(e)
    modifies repo
    ensures repo.Valid() && Inv(repo.View())
    ensures Concluded(repo.View(), job, r, DeclinedVerdict(e), Executing, EffectNotStarted, now,
                      Fails(fault, now, job.lease.expiresAt) || (!DeclinedSafely(e) && !Dispatched(repo.View(), job.stepId)))
  {
    hide Inv, Structural, Ended, InFlight, Dispatched, LeftOpen;
    if DeclinedSafely(e) {
      r := Finalize(repo, job, Executing, EffectNotStarted, FailedVerdict(EffectNotStarted, OrDefault(e.code, "EXECUTION_REJECTED")), now, fault);
    } else {
      r := Finalize(repo, job, Executing, EffectNotStarted, UncertainVerdict(EffectPossiblyActive, OrDefault(e.code, "MUTATION_UNCERTAIN")), now, fault);
    }
  }

  /** A completed execution moves the step on to verification. */
  method StartVerification(repo: MutationRepository, job: Job, now: int, gap: seq<Request>, fault: bool)
    returns (ok: bool, effect: ExternalEffect)
    requires Flying(repo, job, Executing, EffectNotStarted)
    modifies repo
    ensures repo.Valid() && Inv(repo.View()) && ok == !Fails(fault, now, job.lease.expiresAt)
    ensures effect == (if Dispatched(repo.View(), job.stepId) then EffectCompleted else EffectNotStarted)
    ensures if ok then Flying(repo, job, Verifying, effect)
            else LeftOpen(repo.View(), job.id, job.stepId, Executing, EffectNotStarted, Some(job.started))
  {
    hide Inv, Structural, Commit, DecideTransitionStep, LeftOpen, InFlight, Dispatched, HasStep;
    StepInFlight(repo.View(), job, Executing, EffectNotStarted);
    var dispatched := repo.steps[job.stepId].dispatch.Some?;
    WhileRunning(repo, gap, false, job.id, job.stepId, job.lease, Executing, EffectNotStarted, job.started);
    effect := if dispatched then EffectCompleted else EffectNotStarted;
    var i := StepTransitionInput(job.id, job.stepId, [Executing], Verifying, now, StateChangedEvent, job.lease, false,
                                 Some(VerificationPending), None, Some(effect), None, None);
    VerificationCommitted(repo.View(), job, i, fault);
    repo.failNextAudit := fault;
    var reply := repo.TransitionStepWithAudit(i);
    ok := reply == Done;
  }

  lemma StepInFlight(s: State, job: Job, status: ActionStatus, effect: ExternalEffect)
    requires InFlight(s, job.id, job.stepId, job.lease, status, effect, job.started)
    ensures job.stepId in s.steps && Dispatched(s, job.stepId) == s.steps[job.stepId].dispatch.Some?
  {
  }

  lemma VerificationCommitted(s: State, job: Job, i: StepTransitionInput, fault: bool)
    requires Inv(s) && InFlight(s, job.id, job.stepId, job.lease, Executing, EffectNotStarted, job.started)
    requires i.operationId == job.id && i.stepId == job.stepId && i.ownership == job.lease
    requires i.expected == [Executing] && i.status == Verifying && !i.adopt && i.verification == Some(VerificationPending)
    requires i.recovery.None? && i.reason.None? && i.startedAt.None?
    requires i.effect == Some(if Dispatched(s, i.stepId) then EffectCompleted else EffectNotStarted) && i.eventType == StateChangedEvent
    ensures var d := DecideTransitionStep(s, i, fault);
            var t := Commit(s, d.effect);
            && Inv(t) && (d.reply == Done <==> !Fails(fault, i.now, job.lease.expiresAt))
            && Dispatched(t, job.stepId) == Dispatched(s, job.stepId)
            && if Fails(fault, i.now, job.lease.expiresAt) then LeftOpen(t, job.id, job.stepId, Executing, EffectNotStarted, Some(job.started))
               else InFlight(t, job.id, job.stepId, job.lease, Verifying, i.effect.value, job.started)
  {
    hide Keyed, OneChild, LocksCurrent, Quarantined, ParentsAgree, DispatchesConsistent, LogsNumbered, DispatchesLogged, PathsLegal,
         Commit, DecideTransitionStep, LeftOpen, InFlight, Dispatched;
    CallKeepsInv(s, TransitionStep(i), fault);
    FlightLeftOpen(s, job, Executing, EffectNotStarted);
    VerificationStarts(s, i, fault, job.started);
  }

  /** How a run under the lease is stored. */
  ghost predicate RunStored(
    s: State, job: Job, r: Report, executed: Attempt<Execution>, checked: Attempt<Verification>, at: int, gap: seq<Request>, seen: bool)
  {
    && SeenBy(s, job, executed, gap, seen)
    && (r.Finished? ==> Recorded(s, job.id, job.stepId, r.status, executed, checked, Progress(Some(job.started), Some(at), at), seen))
    && (r.Stuck? ==> Stranded(s, job.id, job.stepId, r.status, job.started))
  }

  lemma ConcludedStored(
    s: State, job: Job, r: Report, executed: Attempt<Execution>, checked: Attempt<Verification>, from: ActionStatus, current: ExternalEffect,
    at: int, stuck: bool, gap: seq<Request>, seen: bool)
    requires Concluded(s, job, r, FinalVerdict(executed, checked, seen), from, current, at, stuck)
    requires from == Executing || from == Verifying
    requires current == if from == Verifying && Dispatched(s, job.stepId) then EffectCompleted else EffectNotStarted
    requires seen ==> Dispatched(s, job.stepId)
    requires Dispatched(s, job.stepId) && !seen ==> executed == TimedOutWith(None) && SomeAsksDispatch(gap, job.id)
    ensures RunStored(s, job, r, executed, checked, at, gap, seen)
    ensures r == if stuck then Stuck(from) else Finished(FinalVerdict(executed, checked, seen).status)
    ensures FinalVerdict(executed, checked, seen).status == FinalVerdict(executed, checked, Dispatched(s, job.stepId)).status
  {
    SeenStatus(executed, checked, seen);
    hide FinalVerdict, Recorded, SomeAsksDispatch;
    if !stuck { EndedRecorded(s, job.id, job.stepId, executed, checked, Progress(Some(job.started), Some(at), at), seen); }
  }

  lemma SeenStatus(executed: Attempt<Execution>, checked: Attempt<Verification>, seen: bool)
    ensures executed == TimedOutWith(None) ==>
              FinalVerdict(executed, checked, seen).status == Indeterminate && FinalVerdict(executed, checked, !seen).status == Indeterminate
  {
  }

  lemma NeverBegun(s: State, job: Job, executed: Attempt<Execution>, checked: Attempt<Verification>, at: int, gap: seq<Request>)
    requires LeftOpen(s, job.id, job.stepId, Validated, EffectNotStarted, None) && !Dispatched(s, job.stepId)
    ensures RunStored(s, job, Stuck(Validated), executed, checked, at, gap, false)
  {
  }

  /** After a completed execution: on to verification. */
  method RunChecks(repo: MutationRepository, job: Job, ghost executed: Attempt<Execution>, deadline: int, now: int, x: Setting)
    returns (r: Report, ghost seen: bool)
    requires Flying(repo, job, Executing, EffectNotStarted) && Accepted(x.timing) && RanToCompletion(executed)
    modifies repo
    ensures repo.Valid() && Inv(repo.View())
    ensures var checked := WithDeadline(now + x.pauses.beforeVerifier, deadline, x.timing.acknowledgement, x.verifier, None);
            && RunStored(repo.View(), job, r, executed, checked.0, checked.1 + x.pauses.afterVerifier, x.traffic.afterReading, seen)
            && r == if Fails(x.faults.verify, now, job.lease.expiresAt) then Stuck(Executing)
                    else if OwnError(checked.0) || Fails(x.faults.finish, checked.1 + x.pauses.afterVerifier, job.lease.expiresAt) then Stuck(Verifying)
                    else Finished(FinalVerdict(executed, checked.0, Dispatched(repo.View(), job.stepId)).status)
  {
    hide Inv, Structural, InFlight, Ended, Dispatched, LeftOpen, OwnError, RunStored, CheckedVerdict, WithDeadline, Fails, Recorded;
    var ok, effect := StartVerification(repo, job, now, x.traffic.afterReading, x.faults.verify);
    seen := Dispatched(repo.View(), job.stepId);
    if ok {
      r := Verify(repo, job, effect, deadline, now + x.pauses.beforeVerifier, x);
      ghost var checked := WithDeadline(now + x.pauses.beforeVerifier, deadline, x.timing.acknowledgement, x.verifier, None);
      ConcludedStored(repo.View(), job, r, executed, checked.0, Verifying, effect, checked.1 + x.pauses.afterVerifier,
                      OwnError(checked.0) || Fails(x.faults.finish, checked.1 + x.pauses.afterVerifier, job.lease.expiresAt), x.traffic.afterReading, seen);
    } else {
      r := Stuck(Executing);
      ghost var checked := WithDeadline(now + x.pauses.beforeVerifier, deadline, x.timing.acknowledgement, x.verifier, None);
      ConcludedStored(repo.View(), job, r, executed, checked.0, Executing, EffectNotStarted, checked.1 + x.pauses.afterVerifier, true,
                      x.traffic.afterReading, seen);
    }
  }

  /** After an execution that was not completed: the last write, or none for a protocol error. */
  method RunConclusion(
    repo: MutationRepository, job: Job, attempt: Attempt<Execution>, ghost checked: Attempt<Verification>, now: int, x: Setting)
    returns (r: Report, ghost seen: bool)
    requires Flying(repo, job, Executing, EffectNotStarted) && !RanToCompletion(attempt)
    modifies repo
    ensures repo.Valid() && Inv(repo.View()) && RunStored(repo.View(), job, r, attempt, checked, now, x.traffic.afterReading, seen)
    ensures r == if OwnError(attempt) || (RanUncertainly(attempt) && !Dispatched(repo.View(), job.stepId))
                    || Fails(x.faults.conclude, now, job.lease.expiresAt)
                 then Stuck(Executing)
                 else Finished(FinalVerdict(attempt, checked, Dispatched(repo.View(), job.stepId)).status)
  {
    hide Keyed, OneChild, LocksCurrent, Quarantined, ParentsAgree, DispatchesConsistent, LogsNumbered, DispatchesLogged, PathsLegal,
         InFlight, Ended, Dispatched, LeftOpen, RunStored, Recorded, Fails, TimedOutVerdict, ThrewVerdict, DeclinedVerdict, SomeAsksDispatch;
    FlightLeftOpen(repo.View(), job, Executing, EffectNotStarted);
    match attempt {
      case TimedOutWith(acknowledgement) =>
        r, seen := ExecutionTimedOut(repo, job, acknowledgement, now, x.traffic.afterReading, x.faults.conclude);
      case Settled(MutationFailure(_)) =>
        r, seen := Stuck(Executing), Dispatched(repo.View(), job.stepId);
      case Settled(OtherFailure) =>
        r := ExecutionThrew(repo, job, now, x.traffic.afterReading, x.faults.conclude);
        seen := Dispatched(repo.View(), job.stepId);
      case Settled(Fulfilled(e)) =>
        r := ExecutionDeclined(repo, job, e, now, x.faults.conclude);
        seen := Dispatched(repo.View(), job.stepId);
    }
    ConcludedStored(repo.View(), job, r, attempt, checked, Executing, EffectNotStarted, now,
                    OwnError(attempt) || (RanUncertainly(attempt) && !Dispatched(repo.View(), job.stepId))
                    || Fails(x.faults.conclude, now, job.lease.expiresAt), x.traffic.afterReading, seen);
  }

  /** Execution and verification, from the moment the step is EXECUTING. */
  method Run(repo: MutationRepository, job: Job, deadline: int, start: int, x: Setting) returns (r: Report, ghost seen: bool)
    requires Flying(repo, job, Executing, EffectNotStarted) && Accepted(x.timing)
    requires !Fails(x.faults.begin, start, job.lease.expiresAt)
    requires !Dispatched(repo.View(), job.stepId)
    modifies repo
    ensures repo.Valid() && Inv(repo.View())
    ensures RunStored(repo.View(), job, r, Executed(start, deadline, x).0, Checked(start, deadline, x).0, FinishTime(start, deadline, x),
                      x.traffic.afterReading, seen)
    ensures RunOutcome(r, Executed(start, deadline, x).0, Checked(start, deadline, x).0, Dispatched(repo.View(), job.stepId),
                       Failing(start, deadline, job.lease.expiresAt, x))
  {
    hide Inv, Structural, InFlight, RunStored, FinalVerdict, Dispatched, OwnError, RanUncertainly, RanToCompletion, RunOutcome,
         Executed, Checked, Failing, FinishTime, WithDeadline, Fails;
    RunParts(start, deadline, job.lease.expiresAt, x);
    var (attempt, end) := Executed(start, deadline, x);
    if start < deadline {
      WhileRunning(repo, x.traffic.duringExecutor, true, job.id, job.stepId, job.lease, Executing, EffectNotStarted, job.started);
    }
    var stillRunning := attempt.TimedOutWith? && attempt.acknowledgement.None?;
    WhileRunning(repo, x.traffic.afterExecutor, stillRunning, job.id, job.stepId, job.lease, Executing, EffectNotStarted, job.started);
    var now := end + x.pauses.afterExecutor;
    if RanToCompletion(attempt) {
      r, seen := RunChecks(repo, job, attempt, deadline, now, x);
      ChecksOutcome(r, attempt, Checked(start, deadline, x).0, Dispatched(repo.View(), job.stepId), Failing(start, deadline, job.lease.expiresAt, x));
    } else {
      r, seen := RunConclusion(repo, job, attempt, Checked(start, deadline, x).0, now, x);
      ConclusionOutcome(r, attempt, Checked(start, deadline, x).0, Dispatched(repo.View(), job.stepId), Failing(start, deadline, job.lease.expiresAt, x));
    }
  }

  /** The times and failures of one run, step by step. */
  lemma RunParts(start: int, deadline: int, until: int, x: Setting)
    requires Positive(x.timing)
    ensures var executed := Executed(start, deadline, x);
            var now := executed.1 + x.pauses.afterExecutor;
            var checked := WithDeadline(now + x.pauses.beforeVerifier, deadline, x.timing.acknowledgement, x.verifier, None);
            var f := Failing(start, deadline, until, x);
            && checked == Checked(start, deadline, x)
            && f.begin == Fails(x.faults.begin, start, until) && f.conclude == Fails(x.faults.conclude, now, until)
            && f.verify == Fails(x.faults.verify, now, until) && f.finish == Fails(x.faults.finish, checked.1 + x.pauses.afterVerifier, until)
            && FinishTime(start, deadline, x) == if RanToCompletion(executed.0) then checked.1 + x.pauses.afterVerifier else now
  {
    hide WithDeadline;
  }

  lemma ChecksOutcome(r: Report, executed: Attempt<Execution>, checked: Attempt<Verification>, dispatched: bool, f: Faults)
    requires RanToCompletion(executed) && !f.begin
    requires if f.verify then r == Stuck(Executing)
             else if OwnError(checked) || f.finish then r == Stuck(Verifying)
             else r == Finished(FinalVerdict(executed, checked, dispatched).status)
    ensures RunOutcome(r, executed, checked, dispatched, f)
  {
  }

  lemma ConclusionOutcome(r: Report, executed: Attempt<Execution>, checked: Attempt<Verification>, dispatched: bool, f: Faults)
    requires !RanToCompletion(executed) && !f.begin
    requires if OwnError(executed) || (RanUncertainly(executed) && !dispatched) || f.conclude then r == Stuck(Executing)
             else r == Finished(FinalVerdict(executed, checked, dispatched).status)
    ensures RunOutcome(r, executed, checked, dispatched, f)
  {
  }

  /** The state right after the claim. */
  ghost function AfterClaim(s: State, i: ParentClaimInput, fault: bool): State {
    Commit(s, DecideClaimParent(s, i, fault).effect)
  }

  /** What the other clients make of the state after the claim, up to the request for the lease. */
  ghost function AsksLease(s: State, i: ParentClaimInput, x: Setting): State {
    Served(AfterClaim(s, i, x.faults.claim), x.traffic.afterClaim, i.claim.plan.operationId, None)
  }

  /** What the other clients alone make of the state after the claim, up to the rejection. */
  ghost function WithoutLease(s: State, i: ParentClaimInput, x: Setting): State {
    Served(AsksLease(s, i, x), x.traffic.afterLease, i.claim.plan.operationId, None)
  }

  /** What is stored past a created claim, and what it says about everything that happened. */
  ghost predicate Performed(s: State, t: State, r: Report, leased: bool, i: ParentClaimInput, x: Setting)
    requires Accepted(x.timing)
  {
    var id, start, deadline := i.claim.plan.operationId, i.claim.now + x.pauses.beforeExecutor, i.claim.deadlineAt;
    && leased == KeyFree(AsksLease(s, i, x), i.claim.plan.operationKey)
    && (x.traffic.afterClaim == [] ==> leased == KeyFree(s, i.claim.plan.operationKey))
    && if leased then
         && RunOutcome(r, Executed(start, deadline, x).0, Checked(start, deadline, x).0, Dispatched(t, i.stepId),
                       Failing(start, deadline, i.claim.now + x.timing.lease, x))
         && exists lease, seen :: RunStored(t, Job(id, i.stepId, lease, start), r, Executed(start, deadline, x).0,
                                            Checked(start, deadline, x).0, FinishTime(start, deadline, x), x.traffic.afterReading, seen)
       else
         && t.locks == WithoutLease(s, i, x).locks
         && r == (if x.faults.reject then Unrejected else InProgress)
         && if x.faults.reject then Claimed(t, id, i.stepId, i.claim.plan.operationKey) && HoldsNothing(t, id)
            else Ended(t, id, i.stepId, RejectedVerdict("OPERATION_IN_PROGRESS"), Progress(None, Some(start), start))
  }

  /** The operation is finished exactly when nothing remains open and, without a lease, its rejection was written. */
  lemma EndsIff(s: State, t: State, r: Report, leased: bool, i: ParentClaimInput, x: Setting)
    requires Accepted(x.timing) && Performed(s, t, r, leased, i, x)
    ensures i.claim.plan.operationId in t.operations
    ensures var start, deadline := i.claim.now + x.pauses.beforeExecutor, i.claim.deadlineAt;
            IsTerminal(t.operations[i.claim.plan.operationId].verdict.status) <==>
              if leased then
                Remains(Executed(start, deadline, x).0, Checked(start, deadline, x).0, Dispatched(t, i.stepId),
                        Failing(start, deadline, i.claim.now + x.timing.lease, x)).None?
              else !x.faults.reject
  {
    hide Executed, Checked, KeyFree, WithoutLease;
  }

  /** Performs one mutation. */
  method Perform(repo: MutationRepository, i: ParentClaimInput, replayTime: int, x: Setting) returns (r: Report, leased: bool)
    requires repo.Valid() && Inv(repo.View()) && Accepted(x.timing)
    modifies repo
    ensures repo.Valid() && Inv(repo.View())
    ensures match DecideReplayParent(old(repo.View()), Lookup(i, replayTime), x.faults.replay).reply
            case Replayed(id) => r == ReplayedParent(id) && repo.View() == AfterLookup(old(repo.View()), i, replayTime, x.faults.replay)
            case Failure(error) => r == Refused(error) && repo.View() == AfterLookup(old(repo.View()), i, replayTime, x.faults.replay)
            case _ => ClaimedOrAnswered(old(repo.View()), repo.View(), r, leased, i, x)
  {
    hide Inv, Structural, Commit, DecideReplayParent, ClaimedOrAnswered;
    var replay := Lookup(i, replayTime);
    LookupReply(repo.View(), replay, x.faults.replay);
    CallKeepsInv(repo.View(), ReplayParent(replay), x.faults.replay);
    repo.failNextAudit := x.faults.replay;
    var found := repo.ReplayParentClaim(replay);
    match found {
      case Replayed(id) => r, leased := ReplayedParent(id), false;
      case Failure(error) => r, leased := Refused(error), false;
      case _ => r, leased := PerformClaimed(repo, i, x);
    }
  }

  ghost function AfterLookup(s: State, i: ParentClaimInput, replayTime: int, fault: bool): State {
    Commit(s, DecideReplayParent(s, Lookup(i, replayTime), fault).effect)
  }

  function Lookup(i: ParentClaimInput, now: int): ReplayInput {
    ReplayInput(i.claim.plan.actorId, i.claim.plan.idempotencyKey, i.claim.fingerprint, now)
  }

  /** A lookup that neither replays nor fails has changed nothing. */
  lemma LookupReply(s: State, replay: ReplayInput, fault: bool)
    ensures var d := DecideReplayParent(s, replay, fault);
            !d.reply.Replayed? && !d.reply.Failure? ==> Commit(s, d.effect) == s
  {
    hide ClaimKeys.ClaimKey;
    CommitNothing(s);
  }

  /** The claim decides whether there is anything to perform. */
  ghost predicate ClaimedOrAnswered(s: State, t: State, r: Report, leased: bool, i: ParentClaimInput, x: Setting)
    requires Accepted(x.timing)
  {
    match DecideClaimParent(s, i, x.faults.claim).reply
    case Created(_) => Performed(s, t, r, leased, i, x)
    case Replayed(id) => r == ReplayedParent(id) && t == AfterClaim(s, i, x.faults.claim)
    case Failure(error) => r == Refused(error) && t == AfterClaim(s, i, x.faults.claim)
    case _ => false
  }

  /** `Performed`, told from the state `t` in which the lease is asked for. */
  ghost predicate PerformedFrom(t: State, u: State, r: Report, leased: bool, i: ParentClaimInput, x: Setting)
    requires Accepted(x.timing)
  {
    var id, start, deadline := i.claim.plan.operationId, i.claim.now + x.pauses.beforeExecutor, i.claim.deadlineAt;
    && leased == KeyFree(t, i.claim.plan.operationKey)
    && if leased then
         && RunOutcome(r, Executed(start, deadline, x).0, Checked(start, deadline, x).0, Dispatched(u, i.stepId),
                       Failing(start, deadline, i.claim.now + x.timing.lease, x))
         && exists lease, seen :: RunStored(u, Job(id, i.stepId, lease, start), r, Executed(start, deadline, x).0,
                                            Checked(start, deadline, x).0, FinishTime(start, deadline, x), x.traffic.afterReading, seen)
       else
         && u.locks == Served(t, x.traffic.afterLease, id, None).locks
         && r == (if x.faults.reject then Unrejected else InProgress)
         && if x.faults.reject then Claimed(u, id, i.stepId, i.claim.plan.operationKey) && HoldsNothing(u, id)
            else Ended(u, id, i.stepId, RejectedVerdict("OPERATION_IN_PROGRESS"), Progress(None, Some(start), start))
  }

  lemma PerformedSince(s: State, t: State, u: State, r: Report, leased: bool, i: ParentClaimInput, x: Setting)
    requires Accepted(x.timing) && PerformedFrom(t, u, r, leased, i, x)
    requires t == Served(AfterClaim(s, i, x.faults.claim), x.traffic.afterClaim, i.claim.plan.operationId, None)
    requires KeyFree(AfterClaim(s, i, x.faults.claim), i.claim.plan.operationKey) <==> KeyFree(s, i.claim.plan.operationKey)
    ensures Performed(s, u, r, leased, i, x)
  {
    hide RunOutcome, Executed, Checked, Ended, LeftOpen, KeyFree, Claimed, AfterClaim;
  }

  method PerformClaimed(repo: MutationRepository, i: ParentClaimInput, x: Setting) returns (r: Report, leased: bool)
    requires repo.Valid() && Inv(repo.View()) && Accepted(x.timing)
    modifies repo
    ensures repo.Valid() && Inv(repo.View())
    ensures ClaimedOrAnswered(old(repo.View()), repo.View(), r, leased, i, x)
  {
    hide Keyed, OneChild, LocksCurrent, Quarantined, ParentsAgree, DispatchesConsistent, LogsNumbered, DispatchesLogged, PathsLegal,
         Commit, DecideClaimParent, Claimed, HoldsNothing, Performed, PerformedFrom, KeyFree, Served;
    var now, id, key := i.claim.now, i.claim.plan.operationId, i.claim.plan.operationKey;
    ghost var s := repo.View();
    CallKeepsInv(repo.View(), ClaimParent(i), x.faults.claim);
    ClaimPrepares(repo.View(), i, x.faults.claim);
    repo.failNextAudit := x.faults.claim;
    var claimed := repo.ClaimParentWithStep(i, false);
    if claimed.Failure? { return Refused(claimed.error), false; }
    if claimed.Replayed? { return ReplayedParent(claimed.operationId), false; }
    WaitUnowned(repo, id, i.stepId, key, x.traffic.afterClaim);
    ghost var t := repo.View();
    r, leased := Own(repo, i, x);
    PerformedSince(s, t, repo.View(), r, leased, i, x);
  }

  /** Takes the lease and performs, or rejects the operation when the lease is refused. */
  method Own(repo: MutationRepository, i: ParentClaimInput, x: Setting) returns (r: Report, leased: bool)
    requires repo.Valid() && Inv(repo.View()) && Accepted(x.timing)
    requires Claimed(repo.View(), i.claim.plan.operationId, i.stepId, i.claim.plan.operationKey)
    requires HoldsNothing(repo.View(), i.claim.plan.operationId)
    modifies repo
    ensures repo.Valid() && Inv(repo.View()) && PerformedFrom(old(repo.View()), repo.View(), r, leased, i, x)
  {
    hide Keyed, OneChild, LocksCurrent, Quarantined, ParentsAgree, DispatchesConsistent, LogsNumbered, DispatchesLogged, PathsLegal,
         Commit, DecideAcquire, Claimed, HoldsNothing, Holds, Ended, LeftOpen, Dispatched, KeyFree, Served, RunOutcome, Executed, Checked;
    var now, id, key := i.claim.now, i.claim.plan.operationId, i.claim.plan.operationKey;
    var expiresAt, later := now + x.timing.lease, now + x.pauses.beforeExecutor;
    CallKeepsInv(repo.View(), MutationModel.AcquireLease(key, id, now, expiresAt), false);
    LeaseTaken(repo.View(), id, i.stepId, key, now, expiresAt);
    var reply := repo.AcquireLease(key, id, now, expiresAt);
    leased := reply.Granted?;
    if leased {
      ghost var seen;
      r, seen := Lead(repo, Job(id, i.stepId, reply.lease, later), key, i.claim.deadlineAt, later, x);
    } else {
      WaitUnowned(repo, id, i.stepId, key, x.traffic.afterLease);
      r := Reject(repo, id, i.stepId, key, later, x.faults.reject);
    }
  }

  /** A whole performance under a fresh lease. */
  method Lead(repo: MutationRepository, job: Job, ghost key: Id, deadline: int, start: int, x: Setting)
    returns (r: Report, ghost seen: bool)
    requires repo.Valid() && Inv(repo.View()) && Claimed(repo.View(), job.id, job.stepId, key) && Holds(repo.View(), job.id, job.lease)
    requires job.lease.operationKey == key && Accepted(x.timing) && job.started == start
    modifies repo
    ensures repo.Valid() && Inv(repo.View())
    ensures RunStored(repo.View(), job, r, Executed(start, deadline, x).0, Checked(start, deadline, x).0, FinishTime(start, deadline, x),
                      x.traffic.afterReading, seen)
    ensures RunOutcome(r, Executed(start, deadline, x).0, Checked(start, deadline, x).0, Dispatched(repo.View(), job.stepId),
                       Failing(start, deadline, job.lease.expiresAt, x))
  {
    hide Inv, Structural, Claimed, Holds, Ended, LeftOpen, Dispatched, Executed, Checked, InFlight;
    var ok := Begin(repo, job, key, start, x.traffic.afterLease, x.faults.begin);
    if ok {
      r, seen := Run(repo, job, deadline, start, x);
    } else {
      r, seen := Stuck(Validated), false;
      NeverBegun(repo.View(), job, Executed(start, deadline, x).0, Checked(start, deadline, x).0, FinishTime(start, deadline, x), x.traffic.afterReading);
    }
  }

  method WaitUnowned(repo: MutationRepository, id: Id, ghost stepId: Id, ghost key: Id, others: seq<Request>)
    requires repo.Valid() && Inv(repo.View()) && Claimed(repo.View(), id, stepId, key) && HoldsNothing(repo.View(), id)
    modifies repo
    ensures repo.Valid() && Inv(repo.View())
    ensures Claimed(repo.View(), id, stepId, key) && HoldsNothing(repo.View(), id)
    ensures repo.View() == Served(old(repo.View()), others, id, None)
  {
    hide Inv, Structural, Served;
    OtherClients(repo, others, id, None);
  }

  method Reject(repo: MutationRepository, id: Id, stepId: Id, ghost key: Id, now: int, fault: bool) returns (r: Report)
    requires repo.Valid() && Inv(repo.View())
    requires Claimed(repo.View(), id, stepId, key) && HoldsNothing(repo.View(), id)
    modifies repo
    ensures repo.Valid() && Inv(repo.View()) && repo.locks == old(repo.locks)
    ensures if fault then r == Unrejected && Claimed(repo.View(), id, stepId, key) && HoldsNothing(repo.View(), id)
            else r == InProgress && Ended(repo.View(), id, stepId, RejectedVerdict("OPERATION_IN_PROGRESS"), Progress(None, Some(now), now))
  {
    hide Keyed, OneChild, LocksCurrent, Quarantined, ParentsAgree, DispatchesConsistent, LogsNumbered, DispatchesLogged, PathsLegal,
         Commit, DecideReject, Claimed, HoldsNothing, Ended;
    CallKeepsInv(repo.View(), RejectBeforeOwnership(id, stepId, now, "OPERATION_IN_PROGRESS"), fault);
    RejectionEnds(repo.View(), id, stepId, key, now, "OPERATION_IN_PROGRESS", fault);
    repo.failNextAudit := fault;
    var reply := repo.RejectBeforeOwnership(id, stepId, now, "OPERATION_IN_PROGRESS", false);
    r := if reply == Done then InProgress else Unrejected;
  }

  /** The step starts executing under its new lease, unless that write fails. */
  method Begin(repo: MutationRepository, job: Job, ghost key: Id, now: int, others: seq<Request>, fault: bool) returns (ok: bool)
    requires repo.Valid() && Inv(repo.View()) && Claimed(repo.View(), job.id, job.stepId, key) && Holds(repo.View(), job.id, job.lease)
    requires job.lease.operationKey == key && job.started == now
    modifies repo
    ensures repo.Valid() && Inv(repo.View()) && ok == !Fails(fault, now, job.lease.expiresAt)
    ensures if ok then Flying(repo, job, Executing, EffectNotStarted) && !Dispatched(repo.View(), job.stepId)
            else LeftOpen(repo.View(), job.id, job.stepId, Validated, EffectNotStarted, None) && !Dispatched(repo.View(), job.stepId)
  {
    hide Keyed, OneChild, LocksCurrent, Quarantined, ParentsAgree, DispatchesConsistent, LogsNumbered, DispatchesLogged, PathsLegal,
         Commit, DecideTransitionStep, InFlight, Claimed, Holds, Dispatched, Undisturbed, Guarded, LeftOpen, Served;
    ghost var s := repo.View();
    ClaimedGuarded(s, job, key);
    OtherClients(repo, others, job.id, Some(job.lease));
    StaysClaimed(s, repo.View(), job, key);
    var i := StepTransitionInput(job.id, job.stepId, [Validated], Executing, now, StateChangedEvent, job.lease, true,
                                 None, None, None, None, Some(Some(now)));
    CallKeepsInv(repo.View(), TransitionStep(i), fault);
    ExecutionStarts(repo.View(), i, key, fault, now);
    repo.failNextAudit := fault;
    var reply := repo.TransitionStepWithAudit(i);
    ok := reply == Done;
  }

  lemma ClaimedGuarded(s: State, job: Job, key: Id)
    requires LocksCurrent(s) && Claimed(s, job.id, job.stepId, key) && Holds(s, job.id, job.lease) && job.lease.operationKey == key
    ensures Guarded(s, job.id, Some(job.lease))
  {
  }

  lemma StaysClaimed(s: State, t: State, job: Job, key: Id)
    requires Keyed(t) && Claimed(s, job.id, job.stepId, key) && Holds(s, job.id, job.lease) && job.lease.operationKey == key
    requires Undisturbed(s, t, job.id)
    ensures Claimed(t, job.id, job.stepId, key) && Holds(t, job.id, job.lease) && LeftOpen(t, job.id, job.stepId, Validated, EffectNotStarted, None)
    ensures !Dispatched(t, job.stepId)
  {
  }
}
