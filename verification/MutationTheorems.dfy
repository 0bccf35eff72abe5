/** Recovery, exclusion, aggregation, auditing and idempotency over whole runs. */
module MutationTheorems {
  import opened Basics
  import opened ActionStatuses
  import opened Aggregation
  import opened MutationModel
  import opened MutationInvariants
  import opened MutationCalls
  import opened MutationRuns
  import ClaimKeys

  /** An operation-level authorisation commits what the step-level one does, or one event. */
  lemma AuthorizationShape(s: State, i: DispatchInput, fault: bool)
    ensures var d := DecideAuthorizeOperation(s, i, fault);
            && d.effect.claim == KeepClaims && d.effect.lock == KeepLocks
            && (d.reply == Done || (d.reply.Failure? && d.effect == NoEffect))
            && (d.effect.step.Some? ==> d.effect.step.value.verdict.status == Executing)
  {
    if i.serviceId.Some? {
      forall child | child in StepsOf(s, i.operationId)
        ensures var d := DecideAuthorizeStep(s, ChildDispatch(i, s.steps[child]), fault);
                && d.effect.claim == KeepClaims && d.effect.lock == KeepLocks
                && (d.reply == Done || (d.reply.Failure? && d.effect == NoEffect))
                && (d.effect.step.Some? ==> d.effect.step.value.verdict.status == Executing)
      {
      }
    }
  }

  /** Replaying a claim logs at most one event and touches no row. */
  lemma ReplayShape(s: State, entry: ClaimEntry, fingerprint: string, now: int, fault: bool)
    ensures var d := ReplayClaim(s, entry, fingerprint, now, fault);
            && d.effect.operation.None? && d.effect.step.None? && d.effect.claim == KeepClaims && d.effect.lock == KeepLocks
            && (d.reply == Replayed(entry.operationId) || (d.reply.Failure? && d.effect == NoEffect))
  {
  }

  // ---------------------------------------------------------------- recovery verdicts

  /** With a valid lease, recovery refuses an unfinished step exactly when it is verifying undispatched. */
  lemma RecoveryRefusesOnly(s: State, operationId: Id, stepId: Id, lease: Lease, now: int)
    requires Inv(s) && HasStep(s, operationId, stepId)
    requires Owns(s, s.operations[operationId], lease.operationKey, lease.token, now, true)
    requires !IsTerminal(s.steps[stepId].verdict.status)
    ensures var d := DecideRecoverStep(s, operationId, stepId, lease, now, false);
            var st := s.steps[stepId];
            && (d == Refuse(IllegalTransition) <==> st.verdict.status == Verifying && st.dispatch.None?)
            && (d.reply == Done || d == Refuse(IllegalTransition))
  {
    hide Keyed, OneChild, LocksCurrent, Quarantined, ParentsAgree, LogsNumbered, DispatchesLogged, PathsLegal;
    assert DispatchConsistent(s.steps[stepId]);
  }

  lemma RecoveredStep(s: State, operationId: Id, stepId: Id, lease: Lease, now: int, fault: bool)
    requires Keyed(s) && DispatchesConsistent(s)
    requires DecideRecoverStep(s, operationId, stepId, lease, now, fault).reply == Done
    requires stepId in s.steps && !IsTerminal(s.steps[stepId].verdict.status)
    ensures var t := Commit(s, DecideRecoverStep(s, operationId, stepId, lease, now, fault).effect);
            && stepId in t.steps
            && t.steps[stepId] == StepAfterRecovery(s.steps[stepId], lease, now)
            && (t.steps[stepId].verdict.status == Rejected <==> s.steps[stepId].dispatch.None?)
            && (t.steps[stepId].verdict.status == Indeterminate <==> s.steps[stepId].dispatch.Some?)
  {
    assert DispatchConsistent(s.steps[stepId]);
  }

  /**
   * A step recovered as rejected was never dispatched and never will be; one
   * recovered as indeterminate was. Either way the row is final.
   */
  lemma RecoveryVerdictSound(run: seq<Input>, n: nat, m: nat, operationId: Id, stepId: Id, lease: Lease, now: int)
    requires GoodRun(run) && n < m <= |run| && run[n].call == RecoverStep(operationId, stepId, lease, now)
    requires ReplyAt(run, n) == Done && stepId in StateAt(run, n).steps
    requires !IsTerminal(StateAt(run, n).steps[stepId].verdict.status)
    ensures stepId in StateAt(run, m).steps
    ensures var before, after := StateAt(run, n).steps[stepId], StateAt(run, m).steps[stepId];
            && (after.verdict.status == Rejected || after.verdict.status == Indeterminate)
            && (after.verdict.status == Rejected ==> before.dispatch.None? && after.dispatch.None?)
            && (after.verdict.status == Indeterminate ==> before.dispatch.Some? && after.dispatch == before.dispatch)
  {
    hide DecideRecoverStep, StepAfterRecovery, Commit, GoodRun,
         Keyed, OneChild, LocksCurrent, Quarantined, ParentsAgree, DispatchesConsistent, LogsNumbered,
         DispatchesLogged, PathsLegal;
    ReachableInv(run, n);
    RecoveredStep(StateAt(run, n), operationId, stepId, lease, now, run[n].fault);
    StepFrozen(run, n + 1, m, stepId);
    DispatchKeptByRecovery(StateAt(run, n).steps[stepId], lease, now);
  }

  lemma DispatchKeptByRecovery(st: Step, lease: Lease, now: int)
    ensures StepAfterRecovery(st, lease, now).dispatch == st.dispatch
    ensures StepAfterRecovery(st, lease, now).verdict.status in {Rejected, Indeterminate}
  {
  }

  /** A finished step never changes again. */
  lemma StepFrozen(run: seq<Input>, i: nat, j: nat, stepId: Id)
    requires GoodRun(run) && i <= j <= |run| && stepId in StateAt(run, i).steps
    requires IsTerminal(StateAt(run, i).steps[stepId].verdict.status)
    ensures stepId in StateAt(run, j).steps && StateAt(run, j).steps[stepId] == StateAt(run, i).steps[stepId]
  {
    hide StateAt, LocksEvolve, LogsEvolve;
    RunEvolves(run, i, j);
    assert StepEvolves(StateAt(run, i).steps[stepId], StateAt(run, j).steps[stepId]);
  }

  /** An effect is only ever recorded after dispatch, and is never taken back. */
  lemma EffectImpliesDispatch(run: seq<Input>, i: nat, j: nat, stepId: Id)
    requires GoodRun(run) && i <= j <= |run| && stepId in StateAt(run, i).steps
    requires StateAt(run, i).steps[stepId].verdict.effect != EffectNotStarted
    ensures StateAt(run, i).steps[stepId].dispatch.Some?
    ensures stepId in StateAt(run, j).steps && StateAt(run, j).steps[stepId].verdict.effect != EffectNotStarted
    ensures StateAt(run, j).steps[stepId].dispatch == StateAt(run, i).steps[stepId].dispatch
  {
    hide StateAt, LocksEvolve, LogsEvolve, Keyed, OneChild, LocksCurrent, Quarantined, ParentsAgree, LogsNumbered, DispatchesLogged,
         PathsLegal;
    ReachableInv(run, i);
    RunEvolves(run, i, j);
    assert DispatchConsistent(StateAt(run, i).steps[stepId]);
  }

  // ---------------------------------------------------------------- exclusion without recovery

  ghost predicate ActiveHold(s: State) {
    forall id :: id in s.operations && IsActive(s.operations[id].verdict.status) ==> HoldsLock(s, s.operations[id])
  }

  ghost predicate NoRecoveryLease(run: seq<Input>) {
    forall n :: 0 <= n < |run| ==> !run[n].call.AcquireRecoveryLease?
  }

  /** Apart from recovery, a lease is only granted over a finished owner. */
  lemma GrantsOverFinished(s: State, c: Call, fault: bool)
    requires LocksCurrent(s) && !c.AcquireRecoveryLease? && Decide(s, c, fault).effect.lock.GrantLock?
    ensures c.AcquireLease?
    ensures var key := Decide(s, c, fault).effect.lock.lease.operationKey;
            key in s.locks ==> IsTerminal(s.operations[s.locks[key].owner].verdict.status)
  {
    OnlyLeaseCallsGrant(s, c, fault);
  }

  lemma OnlyLeaseCallsGrant(s: State, c: Call, fault: bool)
    requires Decide(s, c, fault).effect.lock.GrantLock?
    ensures c.AcquireLease? || c.AcquireRecoveryLease?
  {
    hide DecideAuthorizeOperation;
    if c.AuthorizeOperation? {
      AuthorizationShape(s, c.dispatch, fault);
    }
  }

  lemma LawfulKeepsActiveHold(s: State, e: Effect)
    requires Keyed(s) && LocksCurrent(s) && ActiveHold(s) && LawfulRows(s, e) && LawfulLock(s, e)
    requires e.lock.GrantLock? && e.lock.lease.operationKey in s.locks ==>
               IsTerminal(s.operations[s.locks[e.lock.lease.operationKey].owner].verdict.status)
    ensures ActiveHold(Commit(s, e))
  {
    hide LawfulStep, StepsOf;
  }

  lemma {:induction false} ActiveOwnsLock(run: seq<Input>, n: nat)
    requires GoodRun(run) && NoRecoveryLease(run) && n <= |run|
    ensures ActiveHold(StateAt(run, n))
  {
    hide Decide, LawfulRows, LawfulLock, LawfulLog, Commit, Disciplined, ActiveHold, Keyed, OneChild, Quarantined,
         ParentsAgree, DispatchesConsistent, LogsNumbered, DispatchesLogged, PathsLegal, CommitOperation;
    if n == 0 {
      EmptyHold();
    } else {
      ActiveOwnsLock(run, n - 1);
      ReachableInv(run, n - 1);
      var s, c, fault := StateAt(run, n - 1), run[n - 1].call, run[n - 1].fault;
      CallLawful(s, c, fault);
      if Decide(s, c, fault).effect.lock.GrantLock? {
        GrantsOverFinished(s, c, fault);
      }
      LawfulKeepsActiveHold(s, Decide(s, c, fault).effect);
    }
  }

  lemma EmptyHold()
    ensures ActiveHold(EmptyState)
  {
  }

  /**
   * In a run that never takes a recovery lease at most one operation per key is
   * executing or verifying, and it owns the key's lock even after its lease expired.
   */
  lemma ExclusionWithoutRecovery(run: seq<Input>, n: nat, a: Id, b: Id)
    requires GoodRun(run) && NoRecoveryLease(run) && n <= |run|
    requires a in StateAt(run, n).operations && b in StateAt(run, n).operations
    requires var s := StateAt(run, n);
             && IsActive(s.operations[a].verdict.status) && IsActive(s.operations[b].verdict.status)
             && s.operations[a].plan.operationKey == s.operations[b].plan.operationKey
    ensures a == b && HoldsLock(StateAt(run, n), StateAt(run, n).operations[a])
  {
    hide StateAt;
    ActiveOwnsLock(run, n);
    ReachableInv(run, n);
  }

  // ---------------------------------------------------------------- parents and children

  /** In every reachable state the parent equals the aggregation of its (one) step. */
  lemma ParentIsAggregate(run: seq<Input>, n: nat, stepId: Id)
    requires GoodRun(run) && n <= |run| && stepId in StateAt(run, n).steps
    ensures var s := StateAt(run, n);
            var st := s.steps[stepId];
            && st.parentId in s.operations
            && StepsOf(s, st.parentId) == {stepId}
            && s.operations[st.parentId].verdict == AggregateParent([st.verdict])
  {
    hide StateAt, AggregateParent;
    ReachableInv(run, n);
    var s := StateAt(run, n);
    SoleChild(s.steps[stepId].verdict);
    assert stepId in StepsOf(s, s.steps[stepId].parentId);
  }

  /**
   * Why `transitionWithAudit` must be kept to operations without steps: when it succeeds, parents
   * still agree with their steps exactly if the operation has none.
   */
  lemma DisciplineIsNeeded(s: State, i: TransitionInput)
    requires Inv(s) && DecideTransition(s, i, false).reply == Done
    ensures var t := Commit(s, DecideTransition(s, i, false).effect);
            Keyed(t) && (ParentsAgree(t) <==> StepsOf(s, i.operationId) == {})
  {
    hide OneChild, LocksCurrent, Quarantined, DispatchesConsistent, LogsNumbered, DispatchesLogged, PathsLegal, Commit;
    TransitionShape(s, i);
    hide DecideTransition;
    LoneRowKeyed(s, DecideTransition(s, i, false).effect, i.operationId);
    LoneRowAgrees(s, DecideTransition(s, i, false).effect, i.operationId);
  }

  /** The effect rewrites the status of one operation and nothing else in the tables of rows. */
  ghost predicate LoneRow(s: State, e: Effect, id: Id) {
    && id in s.operations && e.operation.Some? && e.operation.value.plan == s.operations[id].plan
    && e.operation.value.verdict.status != s.operations[id].verdict.status
    && e.step.None? && e.claim == KeepClaims && !e.lock.GrantLock? && !e.lock.RenewLock?
    && e.logged == id && e.events != []
  }

  lemma LoneRowKeyed(s: State, e: Effect, id: Id)
    requires Keyed(s) && LoneRow(s, e, id)
    ensures Keyed(Commit(s, e))
  {
  }

  lemma LoneRowAgrees(s: State, e: Effect, id: Id)
    requires Keyed(s) && ParentsAgree(s) && LoneRow(s, e, id) && Keyed(Commit(s, e))
    ensures ParentsAgree(Commit(s, e)) <==> StepsOf(s, id) == {}
  {
    var t := Commit(s, e);
    assert t.operations == s.operations[id := e.operation.value] && t.steps == s.steps;
    hide Commit;
    if StepsOf(s, id) != {} {
      var st :| st in StepsOf(s, id);
      assert t.operations[t.steps[st].parentId].verdict != SoleVerdict(t.steps[st].verdict);
    } else {
      forall st | st in t.steps ensures t.operations[t.steps[st].parentId].verdict == SoleVerdict(t.steps[st].verdict) {
        assert st !in StepsOf(s, id);
      }
    }
  }

  lemma TransitionShape(s: State, i: TransitionInput)
    requires Keyed(s) && DecideTransition(s, i, false).reply == Done
    ensures LoneRow(s, DecideTransition(s, i, false).effect, i.operationId)
  {
    hide NextEvent;
    StatusMoves(s.operations[i.operationId].verdict.status, i.status);
  }

  lemma StatusMoves(from: ActionStatus, to: ActionStatus)
    ensures TransitionAllowed(from, to) ==> from != to
  {
  }

  ghost predicate EffectsSettled(s: State) {
    forall id :: id in s.steps && IsTerminal(s.steps[id].verdict.status) ==>
      TerminalEffectAllowed(s.steps[id].verdict.status, s.steps[id].verdict.effect)
  }

  /** `transitionStepWithAudit` is only asked for unfinished statuses. */
  ghost predicate QuietTransitions(run: seq<Input>) {
    forall n :: 0 <= n < |run| && run[n].call.TransitionStep? ==> !IsTerminal(run[n].call.stepTransition.status)
  }

  predicate SettledRow(e: Effect) {
    e.step.Some? && IsTerminal(e.step.value.verdict.status) ==>
      TerminalEffectAllowed(e.step.value.verdict.status, e.step.value.verdict.effect)
  }

  lemma ClaimsSettleEffects(s: State, c: Call, fault: bool)
    requires c.Claim? || c.ClaimParent? || c.ReplayParent?
    ensures SettledRow(Decide(s, c, fault).effect)
  {
    hide MakeEvent, NextEvent, ReplayClaim, ParentClaimProblem, ClaimKeys.ClaimKey;
    match c {
      case ReplayParent(i) =>
        var key := ClaimKeys.ClaimKey(i.actorId, i.idempotencyKey);
        if key in s.claims { ReplayShape(s, s.claims[key], i.fingerprint, i.now, fault); }
      case Claim(i) =>
        var key := ClaimKeys.ClaimKey(i.plan.actorId, i.plan.idempotencyKey);
        if key in s.claims { ReplayShape(s, s.claims[key], i.fingerprint, i.now, fault); }
      case ClaimParent(i) =>
        var key := ClaimKeys.ClaimKey(i.claim.plan.actorId, i.claim.plan.idempotencyKey);
        if key in s.claims { ReplayShape(s, s.claims[key], i.claim.fingerprint, i.claim.now, fault); }
    }
  }

  lemma StepCallsSettleEffects(s: State, c: Call, fault: bool)
    requires Keyed(s) && DispatchesConsistent(s) && !c.Claim? && !c.ClaimParent? && !c.ReplayParent? && !c.AuthorizeOperation?
    requires c.TransitionStep? ==> !IsTerminal(c.stepTransition.status)
    ensures SettledRow(Decide(s, c, fault).effect)
  {
    hide MakeEvent, SoleVerdict, ChildThenParent, NextEvent, WithChild, TransitionAllowed, EffectChangeAllowed, RecoveryAllowed, Owns;
    if c.RejectBeforeOwnership? && HasStep(s, c.rejectOperation, c.rejectStep) {
      assert DispatchConsistent(s.steps[c.rejectStep]);
    }
  }

  lemma CallSettlesEffects(s: State, c: Call, fault: bool)
    requires Keyed(s) && DispatchesConsistent(s)
    requires c.TransitionStep? ==> !IsTerminal(c.stepTransition.status)
    ensures SettledRow(Decide(s, c, fault).effect)
  {
    match c {
      case AuthorizeOperation(i) =>
        hide DecideAuthorizeOperation;
        AuthorizationShape(s, i, fault);
      case Claim(_) => hide Decide; ClaimsSettleEffects(s, c, fault);
      case ClaimParent(_) => hide Decide; ClaimsSettleEffects(s, c, fault);
      case ReplayParent(_) => hide Decide; ClaimsSettleEffects(s, c, fault);
      case _ => hide Decide; StepCallsSettleEffects(s, c, fault);
    }
  }

  lemma {:induction false} OpenEffectMeansIndeterminate(run: seq<Input>, n: nat)
    requires GoodRun(run) && QuietTransitions(run) && n <= |run|
    ensures EffectsSettled(StateAt(run, n))
  {
    hide Decide, Disciplined, Commit, EffectsSettled;
    if n == 0 {
      EmptySettled();
    } else {
      OpenEffectMeansIndeterminate(run, n - 1);
      ReachableInv(run, n - 1);
      var s, c, fault := StateAt(run, n - 1), run[n - 1].call, run[n - 1].fault;
      CallSettlesEffects(s, c, fault);
      SettledKept(s, Decide(s, c, fault).effect);
    }
  }

  lemma EmptySettled()
    ensures EffectsSettled(EmptyState)
  {
  }

  lemma SettledKept(s: State, e: Effect)
    requires EffectsSettled(s) && SettledRow(e)
    ensures EffectsSettled(Commit(s, e))
  {
  }

  // ---------------------------------------------------------------- auditing

  /** A call that would create an operation through `claim`. */
  predicate CreatingClaim(s: State, c: Call) {
    c.Claim? && !LiveClaim(s, ClaimKeys.ClaimKey(c.claim.plan.actorId, c.claim.plan.idempotencyKey), c.claim.now)
  }

  /** A failed audit write leaves every table as it was, unless the call is a creating `claim`. */
  lemma AuditFailureAtomicIff(s: State, c: Call, fault: bool)
    requires Decide(s, c, fault).reply == Failure(AuditPersistenceFailed)
    ensures Next(s, c, fault) == s <==> !CreatingClaim(s, c)
  {
    hide DecideAuthorizeOperation, DecideClaim, MakeEvent, SoleVerdict, ChildThenParent, NextEvent, WithChild, TransitionAllowed,
         EffectChangeAllowed, RecoveryAllowed, ParentClaimProblem, ClaimKeys.ClaimKey, Owns, StepAfterTransition,
         StepAfterFinalization, StepAfterRecovery, StepAfterRejection, OperationAfterStep, OperationAfterTransition, Commit;
    CommitNone(s);
    match c
    case AuthorizeOperation(i) => AuthorizationShape(s, i, fault);
    case Claim(i) => ClaimFailure(s, i, fault);
    case _ =>
  }

  lemma CommitNone(s: State)
    ensures Commit(s, NoEffect) == s
  {
  }

  lemma ClaimFailure(s: State, i: ClaimInput, fault: bool)
    requires DecideClaim(s, i, fault).reply == Failure(AuditPersistenceFailed)
    ensures Commit(s, DecideClaim(s, i, fault).effect) == s <==> !CreatingClaim(s, Claim(i))
  {
    hide ClaimKeys.ClaimKey;
  }

  /** The operation such a claim leaves behind has no audit events at all. */
  lemma UnauditedClaim(s: State, i: ClaimInput)
    requires Keyed(s) && i.plan.operationId !in s.operations && CreatingClaim(s, Claim(i))
    ensures Decide(s, Claim(i), true).reply == Failure(AuditPersistenceFailed)
    ensures var t := Next(s, Claim(i), true);
            i.plan.operationId in t.operations && AuditsOf(t, i.plan.operationId) == []
  {
    assert i.plan.operationId !in s.audits;
  }

  /** Logs are numbered 1..n, and never lose or change an event. */
  lemma LogIsNumberedAndKept(run: seq<Input>, i: nat, j: nat, id: Id, k: nat)
    requires GoodRun(run) && i <= j <= |run| && k < |AuditsOf(StateAt(run, i), id)|
    ensures k < |AuditsOf(StateAt(run, j), id)|
    ensures AuditsOf(StateAt(run, j), id)[k] == AuditsOf(StateAt(run, i), id)[k]
    ensures AuditsOf(StateAt(run, i), id)[k].sequence == k + 1
  {
    hide StateAt;
    ReachableInv(run, i);
    RunEvolves(run, i, j);
    var s := StateAt(run, i);
    assert id in s.audits && EventFits(s, id, k, s.audits[id][k]);
  }

  /** The events about a step trace a legal path from VALIDATED to its current status. */
  lemma StepHistoryIsLegal(run: seq<Input>, n: nat, stepId: Id)
    requires GoodRun(run) && n <= |run| && stepId in StateAt(run, n).steps
    ensures var s := StateAt(run, n);
            LegalPath(StatusPath(AuditsOf(s, s.steps[stepId].parentId), stepId), s.steps[stepId].verdict.status)
  {
    hide StateAt;
    ReachableInv(run, n);
  }

  // ---------------------------------------------------------------- idempotency

  function CallTime(c: Call): Option<int> {
    match c
    case Claim(i) => Some(i.now)
    case ClaimParent(i) => Some(i.claim.now)
    case ReplayParent(i) => Some(i.now)
    case RejectBeforeOwnership(_, _, now, _) => Some(now)
    case AuthorizeStep(i) => Some(i.now)
    case TransitionStep(i) => Some(i.now)
    case FinalizeStep(i) => Some(i.now)
    case RecoverStep(_, _, _, now) => Some(now)
    case AuthorizeOperation(i) => Some(i.now)
    case TransitionOperation(i) => Some(i.now)
    case AcquireLease(_, _, now, _) => Some(now)
    case AcquireRecoveryLease(_, _, now, _) => Some(now)
    case RenewLease(_, now, _) => Some(now)
    case ReleaseLease(_) => None
  }

  ghost predicate TimeMovesForward(run: seq<Input>) {
    forall i, j :: 0 <= i < j < |run| && CallTime(run[i].call).Some? && CallTime(run[j].call).Some? ==>
      CallTime(run[i].call).value <= CallTime(run[j].call).value
  }

  /** Who asks to claim or replay what, under which idempotency key. */
  function Claimant(c: Call): Option<(Id, string)> {
    match c
    case Claim(i) => Some((i.plan.actorId, i.plan.idempotencyKey))
    case ClaimParent(i) => Some((i.claim.plan.actorId, i.claim.plan.idempotencyKey))
    case ReplayParent(i) => Some((i.actorId, i.idempotencyKey))
    case _ => None
  }

  /** A call made before a claim expires leaves it in place. */
  lemma LiveClaimStays(s: State, c: Call, fault: bool, key: string)
    requires key in s.claims && (CallTime(c).Some? ==> CallTime(c).value < s.claims[key].expiresAt)
    ensures key in Next(s, c, fault).claims && Next(s, c, fault).claims[key] == s.claims[key]
  {
    ClaimChanges(s, c, fault);
  }

  /** Only the two claiming calls touch the claims, and only at a slot that is free or expired. */
  lemma ClaimChanges(s: State, c: Call, fault: bool)
    ensures var change := Decide(s, c, fault).effect.claim;
            && (change.PutClaim? ==> CallTime(c).Some? && !LiveClaim(s, change.key, CallTime(c).value))
            && (change.DropClaim? ==> CallTime(c).Some? && !LiveClaim(s, change.dropped, CallTime(c).value))
  {
    hide DecideAuthorizeOperation;
    if c.AuthorizeOperation? {
      AuthorizationShape(s, c.dispatch, fault);
    }
  }

  lemma {:induction false} ClaimPersists(run: seq<Input>, i: nat, j: nat, key: string)
    requires TimeMovesForward(run) && i <= j < |run|
    requires key in StateAt(run, i).claims && CallTime(run[j].call).Some?
    requires CallTime(run[j].call).value < StateAt(run, i).claims[key].expiresAt
    ensures key in StateAt(run, j).claims && StateAt(run, j).claims[key] == StateAt(run, i).claims[key]
    decreases j - i
  {
    hide Next;
    if i < j {
      LiveClaimStays(StateAt(run, i), run[i].call, run[i].fault, key);
      ClaimPersists(run, i + 1, j, key);
    }
  }

  /**
   * Inside a claim's window every claim by the same actor under the same key
   * returns the same operation or fails; none creates another operation.
   */
  lemma ClaimWindow(run: seq<Input>, i: nat, j: nat, actorId: Id, idempotencyKey: string)
    requires TimeMovesForward(run) && i <= j < |run|
    requires Claimant(run[j].call) == Some((actorId, idempotencyKey))
    requires ClaimKeys.ClaimKey(actorId, idempotencyKey) in StateAt(run, i).claims
    requires CallTime(run[j].call).value < StateAt(run, i).claims[ClaimKeys.ClaimKey(actorId, idempotencyKey)].expiresAt
    ensures var entry := StateAt(run, i).claims[ClaimKeys.ClaimKey(actorId, idempotencyKey)];
            ReplyAt(run, j) == Replayed(entry.operationId) || ReplyAt(run, j).Failure?
    ensures StateAt(run, j + 1).operations == StateAt(run, j).operations
  {
    hide Decide, ClaimKeys.ClaimKey, Commit;
    ClaimPersists(run, i, j, ClaimKeys.ClaimKey(actorId, idempotencyKey));
    ClaimReplays(StateAt(run, j), run[j].call, run[j].fault);
  }

  lemma ClaimReplays(s: State, c: Call, fault: bool)
    requires Claimant(c).Some?
    requires var key := ClaimKeys.ClaimKey(Claimant(c).value.0, Claimant(c).value.1); LiveClaim(s, key, CallTime(c).value)
    ensures var key := ClaimKeys.ClaimKey(Claimant(c).value.0, Claimant(c).value.1);
            var reply := Decide(s, c, fault).reply;
            reply == Replayed(s.claims[key].operationId) || reply.Failure?
    ensures Commit(s, Decide(s, c, fault).effect).operations == s.operations
  {
    hide ClaimKeys.ClaimKey;
  }

  function ClaimedFingerprint(c: Call): string
    requires Claimant(c).Some?
  {
    match c
    case Claim(i) => i.fingerprint
    case ClaimParent(i) => i.claim.fingerprint
    case ReplayParent(i) => i.fingerprint
  }

  /**
   * The answer inside the window, exactly: a conflict for a different request, otherwise the one
   * operation of the window, unless its audit write fails. A parent claim must be well-formed, and
   * `replayParentClaim` only replays an operation that has a step.
   */
  lemma ClaimAnswer(run: seq<Input>, i: nat, j: nat, actorId: Id, idempotencyKey: string)
    requires GoodRun(run) && TimeMovesForward(run) && i <= j < |run|
    requires Claimant(run[j].call) == Some((actorId, idempotencyKey))
    requires ClaimKeys.ClaimKey(actorId, idempotencyKey) in StateAt(run, i).claims
    requires CallTime(run[j].call).value < StateAt(run, i).claims[ClaimKeys.ClaimKey(actorId, idempotencyKey)].expiresAt
    requires run[j].call.ClaimParent? ==> ParentClaimProblem(run[j].call.parent).None?
    requires var entry := StateAt(run, i).claims[ClaimKeys.ClaimKey(actorId, idempotencyKey)];
             run[j].call.ReplayParent? ==> |StepsOf(StateAt(run, j), entry.operationId)| == 1
    ensures var entry := StateAt(run, i).claims[ClaimKeys.ClaimKey(actorId, idempotencyKey)];
            ReplyAt(run, j) ==
              if ClaimedFingerprint(run[j].call) != entry.fingerprint then Failure(IdempotencyConflict)
              else if run[j].fault then Failure(AuditPersistenceFailed)
              else Replayed(entry.operationId)
  {
    hide Decide, ClaimKeys.ClaimKey, Commit, ParentClaimProblem, StepsOf, OneChild, LocksCurrent, Quarantined, ParentsAgree,
         DispatchesConsistent, LogsNumbered, DispatchesLogged, PathsLegal;
    ClaimPersists(run, i, j, ClaimKeys.ClaimKey(actorId, idempotencyKey));
    ReachableInv(run, j);
    LiveClaimAnswers(StateAt(run, j), run[j].call, run[j].fault);
  }

  lemma LiveClaimAnswers(s: State, c: Call, fault: bool)
    requires Keyed(s) && Claimant(c).Some? && (c.ClaimParent? ==> ParentClaimProblem(c.parent).None?)
    requires var key := ClaimKeys.ClaimKey(Claimant(c).value.0, Claimant(c).value.1);
             LiveClaim(s, key, CallTime(c).value) && (c.ReplayParent? ==> |StepsOf(s, s.claims[key].operationId)| == 1)
    ensures var entry := s.claims[ClaimKeys.ClaimKey(Claimant(c).value.0, Claimant(c).value.1)];
            Decide(s, c, fault).reply ==
              if ClaimedFingerprint(c) != entry.fingerprint then Failure(IdempotencyConflict)
              else if fault then Failure(AuditPersistenceFailed)
              else Replayed(entry.operationId)
  {
    hide ClaimKeys.ClaimKey, ParentClaimProblem, StepsOf;
  }

  /** A created operation is claimed for its own actor and key, and for nobody else. */
  lemma CreationOwnsItsSlot(s: State, c: Call, fault: bool)
    requires Decide(s, c, fault).effect.claim.PutClaim?
    ensures Claimant(c).Some?
    ensures var put := Decide(s, c, fault).effect.claim;
            && put.key == ClaimKeys.ClaimKey(Claimant(c).value.0, Claimant(c).value.1)
            && (forall actor, key :: put.key == ClaimKeys.ClaimKey(actor, key) ==> (actor, key) == Claimant(c).value)
  {
    OnlyClaimsPut(s, c, fault);
    var put := Decide(s, c, fault).effect.claim;
    forall actor, key | put.key == ClaimKeys.ClaimKey(actor, key)
      ensures (actor, key) == Claimant(c).value
    {
      ClaimKeys.ClaimKeyInjective(actor, key, Claimant(c).value.0, Claimant(c).value.1);
    }
  }

  lemma OnlyClaimsPut(s: State, c: Call, fault: bool)
    requires Decide(s, c, fault).effect.claim.PutClaim?
    ensures c.Claim? || c.ClaimParent?
  {
    hide DecideAuthorizeOperation;
    if c.AuthorizeOperation? {
      AuthorizationShape(s, c.dispatch, fault);
    }
  }
}
