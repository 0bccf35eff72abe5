/** Every disciplined call commits a lawful effect. */
module MutationCalls {
  import opened Basics
  import opened ActionStatuses
  import opened Aggregation
  import opened MutationModel
  import opened MutationInvariants
  import ClaimKeys

  /**
   * The two API families kept apart: `transitionWithAudit` is for operations without child
   * steps, and no transition is asked to log a dispatch event.
   */
  ghost predicate Disciplined(s: State, c: Call) {
    match c
    case TransitionOperation(i) => StepsOf(s, i.operationId) == {} && i.eventType != DispatchEvent
    case TransitionStep(i) => i.eventType != DispatchEvent
    case _ => true
  }

  // ---------------------------------------------------------------- the two shapes of a log entry

  /** One event about `step`, or about the operation itself. */
  lemma OneEventLawful(s: State, e: Effect, op: Operation, eventType: EventType, now: int, reason: Option<string>)
    requires e.logged == op.plan.operationId && op.plan.operationId in CommitOperation(s.operations, e.operation)
    requires e.operation.Some? ==> e.operation.value.plan.operationId == op.plan.operationId
    requires e.events == [NextEvent(s, op, e.step, eventType, now, reason)]
    requires eventType == DispatchEvent ==>
               !HasDispatchEvent(AuditsOf(s, e.logged)) && (e.step.None? ==> StepsOf(s, e.logged) == {})
    requires e.step.Some? ==>
               (eventType == DispatchEvent <==>
                  e.step.value.dispatch.Some? && (e.step.value.id in s.steps ==> s.steps[e.step.value.id].dispatch.None?))
    ensures LawfulLog(s, e)
  {
    hide StepsOf;
    assert HasDispatchEvent(e.events) <==> eventType == DispatchEvent by {
      assert e.events[0].eventType == eventType;
    }
    assert LawfulEvent(s, e, 0);
    if e.step.Some? { assert e.events[0].childStepId.Some?; }
  }

  /** The step's event, then the operation's. */
  lemma TwoEventsLawful(s: State, e: Effect, op: Operation, eventType: EventType, now: int, reason: Option<string>)
    requires e.logged == op.plan.operationId && op.plan.operationId in CommitOperation(s.operations, e.operation)
    requires e.operation.Some? ==> e.operation.value.plan.operationId == op.plan.operationId
    requires e.step.Some? && eventType != DispatchEvent
    requires e.events == ChildThenParent(s, op, e.step.value, eventType, now, reason)
    requires e.step.value.id in s.steps && e.step.value.dispatch == s.steps[e.step.value.id].dispatch
    ensures LawfulLog(s, e)
  {
    hide StepsOf;
    assert !HasDispatchEvent(e.events);
    assert LawfulEvent(s, e, 0) && LawfulEvent(s, e, 1);
    assert e.events[0].childStepId.Some?;
  }

  /** Nothing is logged. */
  lemma SilentLawful(s: State, e: Effect)
    requires e.events == [] && e.operation.None? && e.step.None?
    ensures LawfulLog(s, e) && LawfulRows(s, e)
  {
  }

  // ---------------------------------------------------------------- claims

  lemma ReplayLawful(s: State, entry: ClaimEntry, fingerprint: string, now: int, fault: bool)
    requires Keyed(s)
    ensures Lawful(s, ReplayClaim(s, entry, fingerprint, now, fault).effect)
  {
    var e := ReplayClaim(s, entry, fingerprint, now, fault).effect;
    if e.events != [] {
      OneEventLawful(s, e, s.operations[entry.operationId], ReplayedEvent, now, None);
    }
  }

  lemma ClaimLawful(s: State, i: ClaimInput, fault: bool)
    requires Keyed(s)
    ensures Lawful(s, DecideClaim(s, i, fault).effect)
  {
    hide ReplayClaim, LawfulLog;
    var key := ClaimKeys.ClaimKey(i.plan.actorId, i.plan.idempotencyKey);
    var e := DecideClaim(s, i, fault).effect;
    if LiveClaim(s, key, i.now) {
      ReplayLawful(s, s.claims[key], i.fingerprint, i.now, fault);
    } else if e.events != [] {
      OneEventLawful(s, e, FreshOperation(i), ClaimedEvent, i.now, None);
      assert StepsOf(s, i.plan.operationId) == {};
    } else if e.operation.Some? {
      assert StepsOf(s, i.plan.operationId) == {};
      UnloggedCreation(s, e);
    } else {
      SilentLawful(s, e);
    }
  }

  lemma UnloggedCreation(s: State, e: Effect)
    requires e.events == [] && e.step.None? && e.operation.Some? && e.logged == e.operation.value.plan.operationId
    ensures LawfulLog(s, e)
  {
  }

  lemma ClaimParentLawful(s: State, i: ParentClaimInput, fault: bool)
    requires Keyed(s)
    ensures Lawful(s, DecideClaimParent(s, i, fault).effect)
  {
    hide ReplayClaim, LawfulLog;
    var key := ClaimKeys.ClaimKey(i.claim.plan.actorId, i.claim.plan.idempotencyKey);
    var e := DecideClaimParent(s, i, fault).effect;
    if ParentClaimProblem(i).None? && LiveClaim(s, key, i.claim.now) {
      ReplayLawful(s, s.claims[key], i.claim.fingerprint, i.claim.now, fault);
    } else if e.operation.Some? {
      CreationLog(s, e, i);
    } else {
      SilentLawful(s, e);
    }
  }

  lemma CreationLog(s: State, e: Effect, i: ParentClaimInput)
    requires Keyed(s) && i.claim.plan.operationId !in s.operations && i.stepId !in s.steps
    requires e.operation == Some(FreshOperation(i.claim)) && e.step == Some(FreshStep(i))
    requires e.logged == i.claim.plan.operationId
    requires var n := |AuditsOf(s, e.logged)|;
             e.events == [MakeEvent(n + 1, e.operation.value, None, ClaimedEvent, i.claim.now, None),
                          MakeEvent(n + 2, e.operation.value, e.step, StepCreatedEvent, i.claim.now, None)]
    ensures LawfulLog(s, e)
  {
    hide StepsOf;
    assert !HasDispatchEvent(e.events);
    assert LawfulEvent(s, e, 0) && LawfulEvent(s, e, 1);
    assert e.events[1].childStepId.Some? && e.events[0].childStepId.None?;
  }

  lemma ReplayParentLawful(s: State, i: ReplayInput, fault: bool)
    requires Keyed(s)
    ensures Lawful(s, DecideReplayParent(s, i, fault).effect)
  {
    hide ReplayClaim, Lawful;
    var key := ClaimKeys.ClaimKey(i.actorId, i.idempotencyKey);
    NothingLawful(s);
    if LiveClaim(s, key, i.now) {
      ReplayLawful(s, s.claims[key], i.fingerprint, i.now, fault);
    }
  }

  lemma NothingLawful(s: State)
    ensures Lawful(s, NoEffect)
  {
  }

  /** Everything about an effect but its log is lawful. */
  ghost predicate LawfulTables(s: State, e: Effect) {
    LawfulRows(s, e) && LawfulLock(s, e) && !e.claim.PutClaim?
  }

  // ---------------------------------------------------------------- steps

  lemma RejectTables(s: State, op: Id, st: Id, now: int, reason: string, fault: bool)
    requires Keyed(s) && DispatchesConsistent(s)
    ensures LawfulTables(s, DecideReject(s, op, st, now, reason, fault).effect)
  {
    hide ChildThenParent;
  }

  lemma RejectLawful(s: State, op: Id, st: Id, now: int, reason: string, fault: bool)
    requires Keyed(s) && DispatchesConsistent(s)
    ensures Lawful(s, DecideReject(s, op, st, now, reason, fault).effect)
  {
    RejectTables(s, op, st, now, reason, fault);
    hide LawfulLog, LawfulRows, LawfulLock, ChildThenParent, DispatchesConsistent;
    NothingLawful(s);
    var e := DecideReject(s, op, st, now, reason, fault).effect;
    if e.step.Some? {
      TwoEventsLawful(s, e, e.operation.value, FailedEvent, now, Some(reason));
    }
  }

  lemma AuthorizeStepLawful(s: State, i: StepDispatchInput, fault: bool)
    requires Keyed(s) && ParentsAgree(s) && DispatchesConsistent(s) && DispatchesLogged(s)
    ensures Lawful(s, DecideAuthorizeStep(s, i, fault).effect)
  {
    hide LawfulLog, NextEvent;
    NothingLawful(s);
    var e := DecideAuthorizeStep(s, i, fault).effect;
    if e.step.Some? {
      OneEventLawful(s, e, e.operation.value, DispatchEvent, i.now, None);
    }
  }

  lemma TransitionChange(st: Step, after: Step)
    requires DispatchConsistent(st)
    requires after == st.(verdict := after.verdict, token := after.token, progress := after.progress)
    requires TransitionAllowed(st.verdict.status, after.verdict.status)
    requires EffectChangeAllowed(st.verdict.effect, after.verdict.effect, st.dispatch.Some?)
    ensures StepChange(st, after) && DispatchConsistent(after)
  {
  }

  /** The effect of a step call under the lock: the step and its parent move on together. */
  ghost predicate MovesStep(s: State, e: Effect, id: Id, stepId: Id) {
    && HasStep(s, id, stepId) && e.step.Some? && e.step.value.id == stepId && e.step.value.parentId == id
    && !IsTerminal(s.steps[stepId].verdict.status)
    && e.operation.Some? && e.operation.value.plan == s.operations[id].plan
    && e.operation.value.verdict == SoleVerdict(e.step.value.verdict)
    && HoldsLock(s, s.operations[id]) && e.claim == KeepClaims
    && (e.lock == KeepLocks
        || (e.lock == DropLock(s.operations[id].plan.operationKey) && IsTerminal(e.step.value.verdict.status)
            && e.step.value.verdict.status != Indeterminate))
  }

  lemma MovedStepTables(s: State, e: Effect, id: Id, stepId: Id)
    requires Keyed(s) && ParentsAgree(s) && MovesStep(s, e, id, stepId)
    requires StepChange(s.steps[stepId], e.step.value) && DispatchConsistent(e.step.value)
    ensures LawfulTables(s, e)
  {
    hide StepChange, DispatchConsistent;
  }

  lemma TransitionMoves(s: State, i: StepTransitionInput, fault: bool)
    requires Keyed(s) && DecideTransitionStep(s, i, fault).effect != NoEffect
    ensures MovesStep(s, DecideTransitionStep(s, i, fault).effect, i.operationId, i.stepId)
    ensures DecideTransitionStep(s, i, fault).effect.step == Some(StepAfterTransition(s.steps[i.stepId], i))
    ensures TransitionAllowed(s.steps[i.stepId].verdict.status, i.status)
    ensures EffectChangeAllowed(s.steps[i.stepId].verdict.effect, OrElse(i.effect, s.steps[i.stepId].verdict.effect), s.steps[i.stepId].dispatch.Some?)
  {
    hide NextEvent, EffectChangeAllowed;
  }

  lemma TransitionStepTables(s: State, i: StepTransitionInput, fault: bool)
    requires Keyed(s) && ParentsAgree(s) && DispatchesConsistent(s)
    ensures LawfulTables(s, DecideTransitionStep(s, i, fault).effect)
  {
    hide StepChange, EffectChangeAllowed, MovesStep, LawfulTables, DecideTransitionStep, ParentsAgree, Keyed;
    var e := DecideTransitionStep(s, i, fault).effect;
    if e == NoEffect {
      NothingTables(s);
    } else {
      TransitionMoves(s, i, fault);
      StepHere(s, e, i.operationId, i.stepId);
      TransitionChange(s.steps[i.stepId], e.step.value);
      MovedStepTables(s, e, i.operationId, i.stepId);
    }
  }

  lemma NothingTables(s: State)
    ensures LawfulTables(s, NoEffect)
  {
  }

  lemma StepHere(s: State, e: Effect, id: Id, stepId: Id)
    requires MovesStep(s, e, id, stepId) && DispatchesConsistent(s)
    ensures stepId in s.steps && DispatchConsistent(s.steps[stepId]) && e.step.Some? && !IsTerminal(s.steps[stepId].verdict.status)
  {
  }

  lemma TransitionStepLawful(s: State, i: StepTransitionInput, fault: bool)
    requires Keyed(s) && ParentsAgree(s) && DispatchesConsistent(s) && i.eventType != DispatchEvent
    ensures Lawful(s, DecideTransitionStep(s, i, fault).effect)
  {
    TransitionStepTables(s, i, fault);
    hide LawfulLog, LawfulRows, LawfulLock, NextEvent, ParentsAgree, DispatchesConsistent, EffectChangeAllowed, TransitionAllowed;
    NothingLawful(s);
    var e := DecideTransitionStep(s, i, fault).effect;
    if e.step.Some? {
      OneEventLawful(s, e, e.operation.value, i.eventType, i.now, i.reason);
    }
  }

  lemma FinalizationMoves(s: State, i: StepFinalizationInput, fault: bool)
    requires Keyed(s) && DecideFinalizeStep(s, i, fault).effect != NoEffect
    ensures MovesStep(s, DecideFinalizeStep(s, i, fault).effect, i.operationId, i.stepId)
    ensures DecideFinalizeStep(s, i, fault).effect.step == Some(StepAfterFinalization(s.steps[i.stepId], i))
    ensures TransitionAllowed(s.steps[i.stepId].verdict.status, i.status)
    ensures EffectChangeAllowed(s.steps[i.stepId].verdict.effect, i.effect, s.steps[i.stepId].dispatch.Some?)
  {
    hide ChildThenParent, EffectChangeAllowed;
  }

  lemma FinalizeTables(s: State, i: StepFinalizationInput, fault: bool)
    requires Keyed(s) && ParentsAgree(s) && DispatchesConsistent(s)
    ensures LawfulTables(s, DecideFinalizeStep(s, i, fault).effect)
  {
    hide StepChange, EffectChangeAllowed, MovesStep, LawfulTables, DecideFinalizeStep, ParentsAgree, Keyed;
    var e := DecideFinalizeStep(s, i, fault).effect;
    if e == NoEffect {
      NothingTables(s);
    } else {
      FinalizationMoves(s, i, fault);
      StepHere(s, e, i.operationId, i.stepId);
      TransitionChange(s.steps[i.stepId], e.step.value);
      MovedStepTables(s, e, i.operationId, i.stepId);
    }
  }

  lemma FinalizeLawful(s: State, i: StepFinalizationInput, fault: bool)
    requires Keyed(s) && ParentsAgree(s) && DispatchesConsistent(s)
    ensures Lawful(s, DecideFinalizeStep(s, i, fault).effect)
  {
    FinalizeTables(s, i, fault);
    hide LawfulLog, LawfulRows, LawfulLock, ChildThenParent, ParentsAgree, DispatchesConsistent, EffectChangeAllowed, TransitionAllowed;
    NothingLawful(s);
    var e := DecideFinalizeStep(s, i, fault).effect;
    if e.step.Some? {
      TwoEventsLawful(s, e, e.operation.value, if i.status == Succeeded then CompletedEvent else FailedEvent, i.now, i.reason);
    }
  }

  lemma RecoveryChange(st: Step, lease: Lease, now: int)
    requires DispatchConsistent(st) && !IsTerminal(st.verdict.status)
    requires RecoveryAllowed(st.verdict.status, RecoveryStatus(st))
    ensures StepChange(st, StepAfterRecovery(st, lease, now)) && DispatchConsistent(StepAfterRecovery(st, lease, now))
  {
  }

  lemma RecoveryMoves(s: State, op: Id, st: Id, lease: Lease, now: int, fault: bool)
    requires Keyed(s) && DecideRecoverStep(s, op, st, lease, now, fault).effect != NoEffect
    ensures MovesStep(s, DecideRecoverStep(s, op, st, lease, now, fault).effect, op, st)
    ensures DecideRecoverStep(s, op, st, lease, now, fault).effect.step == Some(StepAfterRecovery(s.steps[st], lease, now))
    ensures RecoveryAllowed(s.steps[st].verdict.status, RecoveryStatus(s.steps[st]))
  {
    hide ChildThenParent, RecoveryAllowed;
  }

  lemma RecoverTables(s: State, op: Id, st: Id, lease: Lease, now: int, fault: bool)
    requires Keyed(s) && ParentsAgree(s) && DispatchesConsistent(s)
    ensures LawfulTables(s, DecideRecoverStep(s, op, st, lease, now, fault).effect)
  {
    hide StepChange, RecoveryAllowed, MovesStep, LawfulTables, DecideRecoverStep, ParentsAgree, Keyed, DispatchConsistent, StepAfterRecovery;
    var e := DecideRecoverStep(s, op, st, lease, now, fault).effect;
    if e == NoEffect {
      NothingTables(s);
    } else {
      RecoveryMoves(s, op, st, lease, now, fault);
      StepHere(s, e, op, st);
      RecoveryChange(s.steps[st], lease, now);
      MovedStepTables(s, e, op, st);
    }
  }

  lemma RecoverLawful(s: State, op: Id, st: Id, lease: Lease, now: int, fault: bool)
    requires Keyed(s) && ParentsAgree(s) && DispatchesConsistent(s)
    ensures Lawful(s, DecideRecoverStep(s, op, st, lease, now, fault).effect)
  {
    RecoverTables(s, op, st, lease, now, fault);
    hide LawfulLog, LawfulRows, LawfulLock, ChildThenParent, ParentsAgree, DispatchesConsistent, RecoveryAllowed;
    NothingLawful(s);
    var e := DecideRecoverStep(s, op, st, lease, now, fault).effect;
    if e.step.Some? {
      TwoEventsLawful(s, e, e.operation.value, RecoveredEvent, now, e.step.value.verdict.reason);
    }
  }

  // ---------------------------------------------------------------- operations and leases

  lemma AuthorizeOperationLawful(s: State, i: DispatchInput, fault: bool)
    requires Inv(s)
    ensures Lawful(s, DecideAuthorizeOperation(s, i, fault).effect)
  {
    hide LawfulLog, NextEvent, DecideAuthorizeStep;
    NothingLawful(s);
    if StepsOf(s, i.operationId) != {} && i.serviceId.Some? {
      forall id | id in StepsOf(s, i.operationId)
        ensures Lawful(s, DecideAuthorizeStep(s, ChildDispatch(i, s.steps[id]), fault).effect)
      {
        AuthorizeStepLawful(s, ChildDispatch(i, s.steps[id]), fault);
      }
    } else {
      var e := DecideAuthorizeOperation(s, i, fault).effect;
      if e.events != [] {
        OneEventLawful(s, e, s.operations[i.operationId], DispatchEvent, i.now, None);
      }
    }
  }

  lemma TransitionTables(s: State, i: TransitionInput, fault: bool)
    requires Keyed(s) && LocksCurrent(s) && StepsOf(s, i.operationId) == {}
    ensures LawfulTables(s, DecideTransition(s, i, fault).effect)
  {
    hide NextEvent, StepsOf;
  }

  lemma TransitionLawful(s: State, i: TransitionInput, fault: bool)
    requires Keyed(s) && LocksCurrent(s) && StepsOf(s, i.operationId) == {} && i.eventType != DispatchEvent
    ensures Lawful(s, DecideTransition(s, i, fault).effect)
  {
    TransitionTables(s, i, fault);
    hide LawfulLog, LawfulRows, LawfulLock, NextEvent, StepsOf, LocksCurrent, TransitionAllowed;
    NothingLawful(s);
    var e := DecideTransition(s, i, fault).effect;
    if e.operation.Some? {
      OneEventLawful(s, e, e.operation.value, i.eventType, i.now, i.reason);
    }
  }

  lemma LeaseCallsLawful(s: State, c: Call, fault: bool)
    requires Keyed(s) && LocksCurrent(s)
    requires c.AcquireLease? || c.AcquireRecoveryLease? || c.RenewLease? || c.ReleaseLease?
    ensures Lawful(s, Decide(s, c, fault).effect)
  {
    hide Keyed, LocksCurrent, Lawful, Decide;
    if c.AcquireLease? || c.AcquireRecoveryLease? {
      AcquisitionLawful(s, c, fault);
    } else {
      LeaseChangeLawful(s, c, fault);
    }
  }

  lemma AcquisitionLawful(s: State, c: Call, fault: bool)
    requires Keyed(s) && LocksCurrent(s) && (c.AcquireLease? || c.AcquireRecoveryLease?)
    ensures Lawful(s, Decide(s, c, fault).effect)
  {
    hide LawfulLog, LawfulRows;
    SilentLawful(s, Decide(s, c, fault).effect);
  }

  lemma LeaseChangeLawful(s: State, c: Call, fault: bool)
    requires Keyed(s) && LocksCurrent(s) && (c.RenewLease? || c.ReleaseLease?)
    ensures Lawful(s, Decide(s, c, fault).effect)
  {
    hide LawfulLog, LawfulRows;
    SilentLawful(s, Decide(s, c, fault).effect);
  }

  lemma CallLawful(s: State, c: Call, fault: bool)
    requires Inv(s) && Disciplined(s, c)
    ensures Lawful(s, Decide(s, c, fault).effect)
  {
    hide Lawful, DecideClaim, DecideClaimParent, DecideReject, DecideAuthorizeStep, DecideTransitionStep,
         DecideFinalizeStep, DecideRecoverStep, DecideAuthorizeOperation, DecideTransition, DecideReplayParent,
         Keyed, OneChild, LocksCurrent, Quarantined, ParentsAgree, DispatchesConsistent, LogsNumbered,
         DispatchesLogged, PathsLegal;
    match c
    case Claim(i) => ClaimLawful(s, i, fault);
    case ClaimParent(i) => ClaimParentLawful(s, i, fault);
    case ReplayParent(i) => ReplayParentLawful(s, i, fault);
    case RejectBeforeOwnership(op, st, now, reason) => RejectLawful(s, op, st, now, reason, fault);
    case AuthorizeStep(i) => AuthorizeStepLawful(s, i, fault);
    case TransitionStep(i) => TransitionStepLawful(s, i, fault);
    case FinalizeStep(i) => FinalizeLawful(s, i, fault);
    case RecoverStep(op, st, lease, now) => RecoverLawful(s, op, st, lease, now, fault);
    case AuthorizeOperation(i) => AuthorizeOperationLawful(s, i, fault);
    case TransitionOperation(i) => TransitionLawful(s, i, fault);
    case _ => LeaseCallsLawful(s, c, fault);
  }

  /** Every disciplined call keeps the protocol invariant. */
  lemma CallKeepsInv(s: State, c: Call, fault: bool)
    requires Inv(s) && Disciplined(s, c)
    ensures Inv(Next(s, c, fault))
  {
    hide Inv, Lawful, Decide, Commit, Disciplined;
    CallLawful(s, c, fault);
    LawfulKeepsInv(s, Decide(s, c, fault).effect);
  }

  // ---------------------------------------------------------------- undisciplined calls

  /** However calls are mixed, the tables go on fitting together. */
  lemma KeepsStructure(s: State, e: Effect)
    requires Structural(s) && Fits(s, e)
    ensures Structural(Commit(s, e))
  {
    hide Fits, Keyed, OneChild, Commit;
    KeepsKeyed(s, e);
    KeepsOneChild(s, e);
  }

  lemma ClaimFits(s: State, i: ClaimInput, fault: bool)
    requires Keyed(s)
    ensures Fits(s, DecideClaim(s, i, fault).effect)
  {
  }

  lemma ClaimParentFits(s: State, i: ParentClaimInput, fault: bool)
    requires Keyed(s)
    ensures Fits(s, DecideClaimParent(s, i, fault).effect)
  {
  }

  lemma ReplayParentFits(s: State, i: ReplayInput, fault: bool)
    requires Keyed(s)
    ensures Fits(s, DecideReplayParent(s, i, fault).effect)
  {
  }

  lemma RejectFits(s: State, op: Id, st: Id, now: int, reason: string, fault: bool)
    requires Keyed(s)
    ensures Fits(s, DecideReject(s, op, st, now, reason, fault).effect)
  {
  }

  lemma AuthorizeStepFits(s: State, i: StepDispatchInput, fault: bool)
    requires Keyed(s)
    ensures Fits(s, DecideAuthorizeStep(s, i, fault).effect)
  {
  }

  lemma TransitionStepFits(s: State, i: StepTransitionInput, fault: bool)
    requires Keyed(s)
    ensures Fits(s, DecideTransitionStep(s, i, fault).effect)
  {
  }

  lemma FinalizeFits(s: State, i: StepFinalizationInput, fault: bool)
    requires Keyed(s)
    ensures Fits(s, DecideFinalizeStep(s, i, fault).effect)
  {
  }

  lemma RecoverFits(s: State, op: Id, st: Id, lease: Lease, now: int, fault: bool)
    requires Keyed(s)
    ensures Fits(s, DecideRecoverStep(s, op, st, lease, now, fault).effect)
  {
  }

  lemma TransitionFits(s: State, i: TransitionInput, fault: bool)
    requires Keyed(s)
    ensures Fits(s, DecideTransition(s, i, fault).effect)
  {
  }

  lemma AuthorizeOperationFits(s: State, i: DispatchInput, fault: bool)
    requires Keyed(s)
    ensures Fits(s, DecideAuthorizeOperation(s, i, fault).effect)
  {
    hide DecideAuthorizeStep;
    if i.serviceId.Some? {
      forall child | child in StepsOf(s, i.operationId)
        ensures Fits(s, DecideAuthorizeStep(s, ChildDispatch(i, s.steps[child]), fault).effect)
      {
        AuthorizeStepFits(s, ChildDispatch(i, s.steps[child]), fault);
      }
    }
  }
}
