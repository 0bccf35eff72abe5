/**
 * What a granted call leaves behind, over whole runs: final rows keep what they were given, leases are as
 * asked for, only a live owner changes anything, and the log tells who did what and when.
 */
module MutationLaws {
  import opened Basics
  import opened ActionStatuses
  import opened Aggregation
  import opened MutationModel
  import opened MutationInvariants
  import opened MutationCalls
  import opened MutationRuns
  import opened MutationTheorems
  import opened MutationOrigins
  import opened MutationClients
  import ClaimKeys

  // ---------------------------------------------------------------- only the live owner acts

  /** The lease presented is the lock of its key, held for the operation the call acts for. */
  predicate LiveLease(s: State, c: Call)
    requires Presented(c).Some? && ActsFor(c).Some?
  {
    var key, token := Presented(c).value.0, Presented(c).value.1;
    && key in s.locks && s.locks[key].owner == ActsFor(c).value && s.locks[key].token == token
    && (CallTime(c).Some? ==> s.locks[key].expiresAt > CallTime(c).value)
  }

  lemma PresentedActs(c: Call)
    requires Presented(c).Some?
    ensures ActsFor(c).Some?
  {
  }

  lemma StepCallNeedsLease(s: State, c: Call, fault: bool)
    requires Keyed(s) && (c.AuthorizeStep? || c.TransitionStep? || c.FinalizeStep? || c.RecoverStep?)
    requires !LiveLease(s, c)
    ensures Decide(s, c, fault).effect == NoEffect
  {
    hide ChildThenParent, NextEvent, SoleVerdict, TransitionAllowed, RecoveryAllowed, EffectChangeAllowed;
  }

  lemma OperationCallNeedsLease(s: State, c: Call, fault: bool)
    requires (c.TransitionOperation? && c.transition.ownership.Some?) || c.RenewLease? || c.ReleaseLease?
    requires !LiveLease(s, c)
    ensures Decide(s, c, fault).effect == NoEffect
  {
    hide NextEvent, TransitionAllowed;
  }

  lemma AuthorizationNeedsLease(s: State, i: DispatchInput, fault: bool)
    requires Structural(s) && !LiveLease(s, AuthorizeOperation(i))
    ensures Next(s, AuthorizeOperation(i), fault) == s
  {
    hide StepsOf, OneChild, Decide, Next, NamesTarget, NamesPlan, HasDispatchEvent, Marked, Logged;
    var child := OneOrNone(s, i.operationId);
    if child.Some? { ForwardedDispatchIff(s, i, fault, child.value); } else { SteplessDispatchIff(s, i, fault); }
  }

  /** A call that presents a lease changes something only if that is the live lock of the operation it acts for. */
  lemma OnlyLiveOwnerActs(run: seq<Input>, n: nat)
    requires GoodRun(run) && n < |run| && Presented(run[n].call).Some? && StateAt(run, n + 1) != StateAt(run, n)
    ensures ActsFor(run[n].call).Some? && LiveLease(StateAt(run, n), run[n].call)
  {
    hide StateAt, Decide, Commit, Structural, Disciplined, LiveLease;
    ReachableStructural(run, n);
    NextState(run, n);
    var s, c, fault := StateAt(run, n), run[n].call, run[n].fault;
    PresentedActs(c);
    CommitNone(s);
    if !LiveLease(s, c) {
      match c {
        case AuthorizeOperation(i) => AuthorizationNeedsLease(s, i, fault);
        case AuthorizeStep(_) => StepCallNeedsLease(s, c, fault);
        case TransitionStep(_) => StepCallNeedsLease(s, c, fault);
        case FinalizeStep(_) => StepCallNeedsLease(s, c, fault);
        case RecoverStep(_, _, _, _) => StepCallNeedsLease(s, c, fault);
        case _ => OperationCallNeedsLease(s, c, fault);
      }
    }
  }

  // ---------------------------------------------------------------- final rows

  /** Parent and step as a call finished them. */
  ghost predicate FinishedAs(s: State, id: Id, stepId: Id, verdict: Verdict, now: int) {
    && stepId in s.steps && s.steps[stepId].parentId == id && id in s.operations
    && s.steps[stepId].verdict == verdict && s.steps[stepId].progress.completedAt == Some(now)
    && s.operations[id].verdict == AggregateParent([verdict]) && s.operations[id].progress.completedAt == Some(now)
  }

  lemma FinishedSticks(run: seq<Input>, i: nat, j: nat, id: Id, stepId: Id, verdict: Verdict, now: int)
    requires GoodRun(run) && i <= j <= |run| && FinishedAs(StateAt(run, i), id, stepId, verdict, now) && IsTerminal(verdict.status)
    ensures FinishedAs(StateAt(run, j), id, stepId, verdict, now)
  {
    hide StateAt, Disciplined, LocksEvolve, LogsEvolve, AggregateParent;
    assert IsTerminal(AggregateParent([verdict]).status) by { ParentFinishedIff([verdict]); }
    RunEvolves(run, i, j);
  }

  /** What becomes of the key: kept exactly by an uncertain outcome. */
  predicate KeyAfter(s: State, t: State, key: Id, uncertain: bool) {
    t.locks == if uncertain then s.locks else s.locks - {key}
  }

  lemma FinalizationLeaves(s: State, i: StepFinalizationInput, fault: bool)
    requires Keyed(s) && Decide(s, FinalizeStep(i), fault).reply == Done
    ensures i.stepId in s.steps && s.steps[i.stepId].verdict.status in i.expected && IsTerminal(i.status)
    ensures FinishedAs(Next(s, FinalizeStep(i), fault), i.operationId, i.stepId,
                       Verdict(i.status, i.verification, i.recovery, i.effect, i.reason), i.now)
    ensures KeyAfter(s, Next(s, FinalizeStep(i), fault), i.ownership.operationKey, i.status == Indeterminate)
  {
    hide ChildThenParent, TransitionAllowed, EffectChangeAllowed, AggregateParent, Owns, CommitClaim, CommitFence, CommitLog;
    SoleChild(Verdict(i.status, i.verification, i.recovery, i.effect, i.reason));
  }

  /** A finalised step keeps the verdict it was given and its time, its operation their aggregate; an uncertain one keeps its key. */
  lemma FinalizationSticks(run: seq<Input>, n: nat, m: nat)
    requires GoodRun(run) && n < m <= |run| && run[n].call.FinalizeStep? && ReplyAt(run, n) == Done
    ensures var i := run[n].call.finalization;
            && i.stepId in StateAt(run, n).steps && StateAt(run, n).steps[i.stepId].verdict.status in i.expected
            && FinishedAs(StateAt(run, m), i.operationId, i.stepId,
                          Verdict(i.status, i.verification, i.recovery, i.effect, i.reason), i.now)
            && KeyAfter(StateAt(run, n), StateAt(run, n + 1), i.ownership.operationKey, i.status == Indeterminate)
  {
    hide StateAt, Disciplined, Structural, Decide, Next, FinishedAs, KeyAfter;
    var i := run[n].call.finalization;
    ReachableStructural(run, n);
    NextState(run, n);
    FinalizationLeaves(StateAt(run, n), i, run[n].fault);
    FinishedSticks(run, n + 1, m, i.operationId, i.stepId, Verdict(i.status, i.verification, i.recovery, i.effect, i.reason), i.now);
  }

  lemma RejectionLeaves(s: State, c: Call, fault: bool)
    requires Keyed(s) && c.RejectBeforeOwnership? && Decide(s, c, fault).reply == Done
    ensures c.rejectStep in s.steps
    ensures FinishedAs(Next(s, c, fault), c.rejectOperation, c.rejectStep,
                       s.steps[c.rejectStep].verdict.(status := Rejected, reason := Some(c.rejectReason)), c.rejectNow)
    ensures Next(s, c, fault).locks == s.locks && s.steps[c.rejectStep].verdict.status == Validated
    ensures s.steps[c.rejectStep].token.None? && c.rejectOperation in s.operations && s.operations[c.rejectOperation].token.None?
    ensures !HoldsLock(s, s.operations[c.rejectOperation])
  {
    hide ChildThenParent, AggregateParent;
    SoleChild(s.steps[c.rejectStep].verdict.(status := Rejected, reason := Some(c.rejectReason)));
  }

  /** Rejecting as unowned finishes a validated operation that nobody owned, for good, and touches no lock. */
  lemma RejectionSticks(run: seq<Input>, n: nat, m: nat)
    requires GoodRun(run) && n < m <= |run| && run[n].call.RejectBeforeOwnership? && ReplyAt(run, n) == Done
    ensures var c, s := run[n].call, StateAt(run, n);
            && c.rejectOperation in s.operations && c.rejectStep in s.steps
            && s.steps[c.rejectStep].verdict.status == Validated && s.steps[c.rejectStep].token.None?
            && s.operations[c.rejectOperation].token.None? && !HoldsLock(s, s.operations[c.rejectOperation])
            && FinishedAs(StateAt(run, m), c.rejectOperation, c.rejectStep,
                          s.steps[c.rejectStep].verdict.(status := Rejected, reason := Some(c.rejectReason)), c.rejectNow)
            && StateAt(run, n + 1).locks == s.locks
  {
    hide StateAt, Disciplined, Structural, Decide, Next, FinishedAs;
    var c := run[n].call;
    ReachableStructural(run, n);
    NextState(run, n);
    RejectionLeaves(StateAt(run, n), c, run[n].fault);
    FinishedSticks(run, n + 1, m, c.rejectOperation, c.rejectStep,
                   StateAt(run, n).steps[c.rejectStep].verdict.(status := Rejected, reason := Some(c.rejectReason)), c.rejectNow);
  }

  /** What recovery writes: a dispatched step is uncertain, any other is rejected with nothing started. */
  function RecoveredVerdict(st: Step): Verdict {
    if st.dispatch.Some?
    then Verdict(Indeterminate, VerificationUnknown, OutcomeUnknown, EffectPossiblyActive, Some("RECOVERY_OUTCOME_UNKNOWN"))
    else Verdict(Rejected, st.verdict.verification, RecoveredPreExecution, EffectNotStarted, Some("RECOVERY_PRE_EXECUTION_ABORTED"))
  }

  lemma RecoveryWrites(st: Step, lease: Lease, now: int)
    requires DispatchConsistent(st)
    ensures var after := StepAfterRecovery(st, lease, now);
            && after.verdict == RecoveredVerdict(st) && after.progress.completedAt == Some(now)
            && after.id == st.id && after.parentId == st.parentId && (Uncertain(st) <==> st.dispatch.Some?)
  {
  }

  lemma RecoveryLeaves(s: State, c: Call, fault: bool)
    requires Keyed(s) && c.RecoverStep? && Decide(s, c, fault).reply == Done
    requires c.recoverStep in s.steps && !IsTerminal(s.steps[c.recoverStep].verdict.status) && DispatchConsistent(s.steps[c.recoverStep])
    ensures FinishedAs(Next(s, c, fault), c.recoverOperation, c.recoverStep, RecoveredVerdict(s.steps[c.recoverStep]), c.recoverNow)
  {
    hide ChildThenParent, AggregateParent, SoleVerdict, RecoveryAllowed, StepAfterRecovery, RecoveredVerdict, Uncertain, RecoveryStatus,
         Owns, CommitLock, CommitFence, CommitLog, CommitClaim;
    RecoveryWrites(s.steps[c.recoverStep], c.recoverLease, c.recoverNow);
    SoleChild(RecoveredVerdict(s.steps[c.recoverStep]));
  }

  lemma RecoveryKey(s: State, c: Call, fault: bool)
    requires Keyed(s) && c.RecoverStep? && Decide(s, c, fault).reply == Done
    requires c.recoverStep in s.steps && !IsTerminal(s.steps[c.recoverStep].verdict.status) && DispatchConsistent(s.steps[c.recoverStep])
    ensures KeyAfter(s, Next(s, c, fault), c.recoverLease.operationKey, s.steps[c.recoverStep].dispatch.Some?)
  {
    hide ChildThenParent, SoleVerdict, RecoveryAllowed, StepAfterRecovery, RecoveredVerdict, Uncertain, RecoveryStatus, Owns,
         CommitOperation, CommitStep, CommitLog, CommitClaim, CommitFence;
    RecoveryWrites(s.steps[c.recoverStep], c.recoverLease, c.recoverNow);
  }

  /** A recovered step keeps the verdict its dispatch mark called for; only an uncertain one keeps its key. */
  lemma RecoverySticks(run: seq<Input>, n: nat, m: nat)
    requires GoodRun(run) && n < m <= |run| && run[n].call.RecoverStep? && ReplyAt(run, n) == Done
    requires var c, s := run[n].call, StateAt(run, n); c.recoverStep in s.steps && !IsTerminal(s.steps[c.recoverStep].verdict.status)
    ensures var c, s := run[n].call, StateAt(run, n);
            && FinishedAs(StateAt(run, m), c.recoverOperation, c.recoverStep, RecoveredVerdict(s.steps[c.recoverStep]), c.recoverNow)
            && KeyAfter(s, StateAt(run, n + 1), c.recoverLease.operationKey, s.steps[c.recoverStep].dispatch.Some?)
  {
    hide StateAt, Disciplined, Structural, Decide, Next, FinishedAs, KeyAfter;
    var c := run[n].call;
    ReachableStructural(run, n);
    assert DispatchConsistent(StateAt(run, n).steps[c.recoverStep]) by { ReachableInv(run, n); }
    NextState(run, n);
    RecoveryLeaves(StateAt(run, n), c, run[n].fault);
    RecoveryKey(StateAt(run, n), c, run[n].fault);
    FinishedSticks(run, n + 1, m, c.recoverOperation, c.recoverStep, RecoveredVerdict(StateAt(run, n).steps[c.recoverStep]), c.recoverNow);
  }

  // ---------------------------------------------------------------- transitions

  /** The fields a transition names are as it names them; the others are as before. */
  predicate VerdictMoves(
    before: Verdict, after: Verdict, status: ActionStatus, verification: Option<VerificationState>, recovery: Option<RecoveryState>,
    effect: Option<ExternalEffect>, reason: Option<string>)
  {
    && after.status == status && after.reason == reason
    && (verification.Some? ==> after.verification == verification.value) && (verification.None? ==> after.verification == before.verification)
    && (recovery.Some? ==> after.recovery == recovery.value) && (recovery.None? ==> after.recovery == before.recovery)
    && (effect.Some? ==> after.effect == effect.value) && (effect.None? ==> after.effect == before.effect)
  }

  predicate TimesMove(before: Progress, after: Progress, startedAt: Option<Option<int>>, completedAt: Option<Option<int>>, now: int) {
    && after.updatedAt == now
    && (startedAt.Some? ==> after.startedAt == startedAt.value) && (startedAt.None? ==> after.startedAt == before.startedAt)
    && (completedAt.Some? ==> after.completedAt == completedAt.value) && (completedAt.None? ==> after.completedAt == before.completedAt)
  }

  /** The step moved as asked, and its parent with it. */
  predicate RowsMoved(st: Step, op: Operation, after: Step, parent: Operation, i: StepTransitionInput) {
    && st.verdict.status in i.expected
    && VerdictMoves(st.verdict, after.verdict, i.status, i.verification, i.recovery, i.effect, i.reason)
    && TimesMove(st.progress, after.progress, i.startedAt, None, i.now)
    && after.token == parent.token == Some(i.ownership.token)
    && parent.verdict == AggregateParent([after.verdict])
    && TimesMove(op.progress, parent.progress, i.startedAt, None, i.now)
  }

  /** What a step transition leaves: those two rows, and everything else as before. */
  ghost predicate StepMoved(s: State, t: State, i: StepTransitionInput) {
    && i.stepId in s.steps && i.operationId in s.operations && i.stepId in t.steps && i.operationId in t.operations
    && RowsMoved(s.steps[i.stepId], s.operations[i.operationId], t.steps[i.stepId], t.operations[i.operationId], i)
    && t.steps - {i.stepId} == s.steps - {i.stepId} && t.operations - {i.operationId} == s.operations - {i.operationId}
    && t.locks == s.locks && t.fences == s.fences && t.claims == s.claims
  }

  lemma RowsMove(st: Step, op: Operation, i: StepTransitionInput)
    requires st.verdict.status in i.expected
    ensures var after := StepAfterTransition(st, i);
            RowsMoved(st, op, after, OperationAfterStep(op, after, i), i) && after.id == st.id
    ensures OperationAfterStep(op, StepAfterTransition(st, i), i).plan == op.plan
  {
    hide AggregateParent, SoleVerdict;
    SoleChild(StepAfterTransition(st, i).verdict);
  }

  lemma StepTransitionLeaves(s: State, i: StepTransitionInput, fault: bool)
    requires Keyed(s) && Decide(s, TransitionStep(i), fault).reply == Done
    ensures StepMoved(s, Next(s, TransitionStep(i), fault), i)
  {
    hide NextEvent, TransitionAllowed, EffectChangeAllowed, Owns, CommitLog, RowsMoved, StepAfterTransition, OperationAfterStep;
    RowsMove(s.steps[i.stepId], s.operations[i.operationId], i);
  }

  /** A step transition that is accepted moves the step and its parent as asked, and nothing else. */
  lemma StepMovesAsAsked(run: seq<Input>, n: nat)
    requires GoodRun(run) && n < |run| && run[n].call.TransitionStep? && ReplyAt(run, n) == Done
    ensures StepMoved(StateAt(run, n), StateAt(run, n + 1), run[n].call.stepTransition)
  {
    hide StateAt, Disciplined, Structural, Decide, Next, StepMoved;
    ReachableStructural(run, n);
    NextState(run, n);
    StepTransitionLeaves(StateAt(run, n), run[n].call.stepTransition, run[n].fault);
  }

  /** The operation moved as asked. */
  predicate RowMoved(op: Operation, after: Operation, i: TransitionInput) {
    && op.verdict.status in i.expected
    && VerdictMoves(op.verdict, after.verdict, i.status, i.verification, i.recovery, None, i.reason)
    && TimesMove(op.progress, after.progress, i.startedAt, i.completedAt, i.now)
    && (i.ownership.Some? ==> after.token == Some(i.ownership.value.token))
  }

  ghost predicate OperationMoved(s: State, t: State, i: TransitionInput) {
    && i.operationId in s.operations && i.operationId in t.operations
    && RowMoved(s.operations[i.operationId], t.operations[i.operationId], i)
    && t.operations - {i.operationId} == s.operations - {i.operationId}
    && t.steps == s.steps && t.fences == s.fences && t.claims == s.claims
    && t.locks == (if IsTerminal(i.status) && i.release && i.ownership.Some? then s.locks - {i.ownership.value.operationKey} else s.locks)
  }

  lemma RowMoves(op: Operation, i: TransitionInput)
    requires op.verdict.status in i.expected
    ensures RowMoved(op, OperationAfterTransition(op, i), i) && OperationAfterTransition(op, i).plan == op.plan
  {
  }

  lemma TransitionLeaves(s: State, i: TransitionInput, fault: bool)
    requires Keyed(s) && Decide(s, TransitionOperation(i), fault).reply == Done
    ensures OperationMoved(s, Next(s, TransitionOperation(i), fault), i)
  {
    hide NextEvent, TransitionAllowed, TransitionOwnershipOk, CommitLog, RowMoved, OperationAfterTransition;
    RowMoves(s.operations[i.operationId], i);
  }

  /** The same for an operation's own transition; only one that finishes it and says so lets go of its key. */
  lemma OperationMovesAsAsked(run: seq<Input>, n: nat)
    requires GoodRun(run) && n < |run| && run[n].call.TransitionOperation? && ReplyAt(run, n) == Done
    ensures OperationMoved(StateAt(run, n), StateAt(run, n + 1), run[n].call.transition)
  {
    hide StateAt, Disciplined, Structural, Decide, Next, OperationMoved;
    ReachableStructural(run, n);
    NextState(run, n);
    TransitionLeaves(StateAt(run, n), run[n].call.transition, run[n].fault);
  }

  // ---------------------------------------------------------------- leases

  /** Some operation of the key is quarantined. */
  ghost predicate KeyQuarantined(s: State, key: Id) {
    exists id :: id in s.operations && s.operations[id].plan.operationKey == key && s.operations[id].verdict.status == Indeterminate
  }

  /** Quarantine shows at the lock: its owner is the uncertain operation. */
  lemma QuarantineAtLock(s: State, key: Id)
    requires Inv(s)
    ensures KeyQuarantined(s, key) <==>
            key in s.locks && s.locks[key].owner in s.operations && s.operations[s.locks[key].owner].verdict.status == Indeterminate
  {
    hide ParentsAgree, DispatchesConsistent, LogsNumbered, DispatchesLogged, PathsLegal, OneChild;
    assert Keyed(s);
    if key in s.locks && s.operations[s.locks[key].owner].verdict.status == Indeterminate {
      assert s.operations[s.locks[key].owner].plan.operationKey == key;
    }
  }

  /** A new lock with the next token, and nothing else. */
  predicate NewLock(s: State, t: State, lease: Lease, key: Id, id: Id, now: int, expires: int) {
    && lease == Lease(key, id, Fence(s, key) + 1, now, expires)
    && t == s.(locks := s.locks[key := lease], fences := s.fences[key := lease.token])
  }

  predicate IsOperationOf(s: State, id: Id, key: Id) {
    id in s.operations && s.operations[id].plan.operationKey == key
  }

  /**
   * A lease is granted exactly to an operation of a key that is not quarantined, when nobody unfinished holds
   * the key or it holds the key itself unexpired. It is then that lock unchanged, or a new one.
   */
  lemma LeaseGrantedIff(run: seq<Input>, n: nat)
    requires GoodRun(run) && n < |run| && run[n].call.AcquireLease?
    ensures var c, s, t, reply := run[n].call, StateAt(run, n), StateAt(run, n + 1), ReplyAt(run, n);
            var key, id, now, expires := c.acquireKey, c.acquireOperation, c.acquireNow, c.acquireExpires;
            var free := key !in s.locks || (s.locks[key].owner in s.operations && IsTerminal(s.operations[s.locks[key].owner].verdict.status));
            var own := key in s.locks && s.locks[key].owner == id && s.locks[key].expiresAt > now;
            && (reply.Granted? <==> expires > now && IsOperationOf(s, id, key) && !KeyQuarantined(s, key) && (free || own))
            && (reply.Granted? && free ==> NewLock(s, t, reply.lease, key, id, now, expires))
            && (reply.Granted? && !free ==> own && reply.lease == s.locks[key])
            && (!(reply.Granted? && free) ==> t == s)
  {
    hide StateAt, Disciplined, KeyQuarantined, Decide, Next;
    ReachableInv(run, n);
    NextState(run, n);
    var c := run[n].call;
    QuarantineAtLock(StateAt(run, n), c.acquireKey);
    AcquireDecides(StateAt(run, n), c, run[n].fault);
  }

  lemma AcquireDecides(s: State, c: Call, fault: bool)
    requires Inv(s) && c.AcquireLease?
    ensures var d, t := Decide(s, c, fault), Next(s, c, fault);
            var key, id, now, expires := c.acquireKey, c.acquireOperation, c.acquireNow, c.acquireExpires;
            var free := key !in s.locks || IsTerminal(s.operations[s.locks[key].owner].verdict.status);
            var quarantined := key in s.locks && s.operations[s.locks[key].owner].verdict.status == Indeterminate;
            var own := key in s.locks && s.locks[key].owner == id && s.locks[key].expiresAt > now;
            && (d.reply.Granted? <==> expires > now && IsOperationOf(s, id, key) && !quarantined && (free || own))
            && (d.reply.Granted? && free ==> NewLock(s, t, d.reply.lease, key, id, now, expires))
            && (d.reply.Granted? && !free ==> own && d.reply.lease == s.locks[key])
            && (!(d.reply.Granted? && free) ==> t == s)
  {
    hide Keyed, OneChild, Quarantined, ParentsAgree, DispatchesConsistent, LogsNumbered, DispatchesLogged, PathsLegal;
    CommitNone(s);
  }

  /** A recovery lease is granted exactly to an unfinished operation of a key that is neither leased now nor quarantined. */
  lemma RecoveryLeaseGrantedIff(run: seq<Input>, n: nat)
    requires GoodRun(run) && n < |run| && run[n].call.AcquireRecoveryLease?
    ensures var c, s, t, reply := run[n].call, StateAt(run, n), StateAt(run, n + 1), ReplyAt(run, n);
            var key, id, now, expires := c.reacquireKey, c.reacquireOperation, c.reacquireNow, c.reacquireExpires;
            && (reply.Granted? <==>
                  && expires > now && IsOperationOf(s, id, key) && !IsTerminal(s.operations[id].verdict.status)
                  && !KeyQuarantined(s, key) && (key in s.locks ==> s.locks[key].expiresAt <= now))
            && (reply.Granted? ==> NewLock(s, t, reply.lease, key, id, now, expires))
            && (!reply.Granted? ==> t == s)
  {
    hide StateAt, Disciplined, KeyQuarantined, Decide, Next;
    ReachableInv(run, n);
    NextState(run, n);
    var c := run[n].call;
    QuarantineAtLock(StateAt(run, n), c.reacquireKey);
    ReacquireDecides(StateAt(run, n), c, run[n].fault);
  }

  lemma ReacquireDecides(s: State, c: Call, fault: bool)
    requires Inv(s) && c.AcquireRecoveryLease?
    ensures var d, t := Decide(s, c, fault), Next(s, c, fault);
            var key, id, now, expires := c.reacquireKey, c.reacquireOperation, c.reacquireNow, c.reacquireExpires;
            var quarantined := key in s.locks && s.operations[s.locks[key].owner].verdict.status == Indeterminate;
            && (d.reply.Granted? <==>
                  && expires > now && IsOperationOf(s, id, key) && !IsTerminal(s.operations[id].verdict.status)
                  && !quarantined && (key in s.locks ==> s.locks[key].expiresAt <= now))
            && (d.reply.Granted? ==> NewLock(s, t, d.reply.lease, key, id, now, expires))
            && (!d.reply.Granted? ==> t == s)
  {
    hide Keyed, OneChild, Quarantined, ParentsAgree, DispatchesConsistent, LogsNumbered, DispatchesLogged, PathsLegal;
    CommitNone(s);
  }

  /** A lease is prolonged exactly while it is the unexpired lock of its key; holder, token and start stay. */
  lemma LeaseRenewedIff(run: seq<Input>, n: nat)
    requires GoodRun(run) && n < |run| && run[n].call.RenewLease?
    ensures var c, s, t, reply := run[n].call, StateAt(run, n), StateAt(run, n + 1), ReplyAt(run, n);
            && (reply.Granted? <==> c.renewExpires > c.renewNow && LiveLease(s, c))
            && (reply.Granted? ==>
                  && reply.lease == s.locks[c.renewed.operationKey].(expiresAt := c.renewExpires)
                  && t == s.(locks := s.locks[c.renewed.operationKey := reply.lease]))
            && (!reply.Granted? ==> t == s)
  {
    hide StateAt, Disciplined, OneChild;
    ReachableStructural(run, n);
    NextState(run, n);
    CommitNone(StateAt(run, n));
  }

  /** A lease is given back exactly when it is the lock of its key and its operation is finished and certain. */
  lemma LeaseReleasedIff(run: seq<Input>, n: nat)
    requires GoodRun(run) && n < |run| && run[n].call.ReleaseLease?
    ensures var c, s, t, reply := run[n].call, StateAt(run, n), StateAt(run, n + 1), ReplyAt(run, n);
            && (reply == Done <==>
                  && LiveLease(s, c) && c.released.owner in s.operations && IsTerminal(s.operations[c.released.owner].verdict.status)
                  && !KeyQuarantined(s, c.released.operationKey))
            && (reply == Done ==> t == s.(locks := s.locks - {c.released.operationKey}))
            && (reply != Done ==> t == s)
  {
    hide StateAt, Disciplined, KeyQuarantined, ParentsAgree, DispatchesConsistent, LogsNumbered, DispatchesLogged, PathsLegal, OneChild;
    ReachableInv(run, n);
    NextState(run, n);
    CommitNone(StateAt(run, n));
    QuarantineAtLock(StateAt(run, n), run[n].call.released.operationKey);
  }

  // ---------------------------------------------------------------- the log tells the truth

  /** The event names its operation and, if it is about a step, that step and its target, each with the status reached. */
  ghost predicate Truthful(t: State, e: AuditEvent, id: Id) {
    && id in t.operations && e.operationId == id
    && var plan := t.operations[id].plan;
       && e.subject.actorId == plan.actorId && e.subject.actorRole == plan.actorRole
       && e.subject.action == plan.action && e.subject.applicationId == plan.applicationId
       && match e.childStepId
          case None => e.subject.serviceId == plan.serviceId && e.subject.containerId == plan.containerId
                       && e.status == t.operations[id].verdict.status
          case Some(child) =>
            && child in t.steps && t.steps[child].parentId == id
            && e.subject.serviceId == Some(t.steps[child].origin.target.serviceId)
            && e.subject.containerId == Some(t.steps[child].origin.target.containerId)
            && e.status == t.steps[child].verdict.status
  }

  /** Every new event of a call is true of the state the call leaves, and dated by the call. */
  ghost predicate Told(s: State, c: Call, e: Effect) {
    forall k :: 0 <= k < |e.events| ==>
      CallTime(c) == Some(e.events[k].timestamp) && Truthful(Commit(s, e), e.events[k], e.logged)
  }

  lemma ReplayClaimTold(s: State, c: Call, entry: ClaimEntry, fingerprint: string, now: int, fault: bool)
    requires Keyed(s) && CallTime(c) == Some(now)
    ensures Told(s, c, ReplayClaim(s, entry, fingerprint, now, fault).effect)
  {
  }

  lemma ClaimTold(s: State, c: Call, fault: bool)
    requires Keyed(s) && c.Claim?
    ensures Told(s, c, Decide(s, c, fault).effect)
  {
    hide ClaimKeys.ClaimKey, ReplayClaim;
    var i := c.claim;
    var key := ClaimKeys.ClaimKey(i.plan.actorId, i.plan.idempotencyKey);
    if key in s.claims { ReplayClaimTold(s, c, s.claims[key], i.fingerprint, i.now, fault); }
  }

  lemma ParentClaimTold(s: State, c: Call, fault: bool)
    requires Keyed(s) && c.ClaimParent?
    ensures Told(s, c, Decide(s, c, fault).effect)
  {
    hide ParentClaimProblem, ClaimKeys.ClaimKey, ReplayClaim, CommitClaim, CommitLock, CommitFence, CommitLog;
    var i := c.parent.claim;
    var key := ClaimKeys.ClaimKey(i.plan.actorId, i.plan.idempotencyKey);
    if key in s.claims { ReplayClaimTold(s, c, s.claims[key], i.fingerprint, i.now, fault); }
  }

  lemma ReplayTold(s: State, c: Call, fault: bool)
    requires Keyed(s) && c.ReplayParent?
    ensures Told(s, c, Decide(s, c, fault).effect)
  {
    hide ClaimKeys.ClaimKey, StepsOf, ReplayClaim;
    var i := c.replay;
    var key := ClaimKeys.ClaimKey(i.actorId, i.idempotencyKey);
    if key in s.claims { ReplayClaimTold(s, c, s.claims[key], i.fingerprint, i.now, fault); }
  }

  lemma DispatchTold(s: State, c: Call, fault: bool)
    requires Keyed(s) && c.AuthorizeStep?
    ensures Told(s, c, Decide(s, c, fault).effect)
  {
    hide Owns, CommitClaim, CommitLock, CommitFence, CommitLog;
  }

  lemma StepTransitionTold(s: State, c: Call, fault: bool)
    requires Keyed(s) && c.TransitionStep?
    ensures Told(s, c, Decide(s, c, fault).effect)
  {
    hide SoleVerdict, TransitionAllowed, EffectChangeAllowed, Owns, CommitClaim, CommitLock, CommitFence, CommitLog;
  }

  lemma FinalizationTold(s: State, c: Call, fault: bool)
    requires Keyed(s) && c.FinalizeStep?
    ensures Told(s, c, Decide(s, c, fault).effect)
  {
    hide SoleVerdict, TransitionAllowed, EffectChangeAllowed, Owns, TerminalEffectAllowed, CommitClaim, CommitLock, CommitFence, CommitLog;
  }

  lemma RecoveryTold(s: State, c: Call, fault: bool)
    requires Keyed(s) && c.RecoverStep?
    ensures Told(s, c, Decide(s, c, fault).effect)
  {
    hide SoleVerdict, RecoveryAllowed, Owns, CommitClaim, CommitLock, CommitFence, CommitLog;
  }

  lemma RejectionTold(s: State, c: Call, fault: bool)
    requires Keyed(s) && c.RejectBeforeOwnership?
    ensures Told(s, c, Decide(s, c, fault).effect)
  {
    hide SoleVerdict;
  }

  lemma OperationCallsTold(s: State, c: Call, fault: bool)
    requires Keyed(s) && (c.TransitionOperation? || c.AcquireLease? || c.AcquireRecoveryLease? || c.RenewLease? || c.ReleaseLease?)
    ensures Told(s, c, Decide(s, c, fault).effect)
  {
    hide TransitionAllowed, TransitionOwnershipOk;
  }

  lemma AuthorizationTold(s: State, i: DispatchInput, fault: bool)
    requires Structural(s)
    ensures Told(s, AuthorizeOperation(i), Decide(s, AuthorizeOperation(i), fault).effect)
  {
    var child := OneOrNone(s, i.operationId);
    if child.Some? {
      ForwardedDispatch(s, i, fault, child.value);
      if i.operationId in s.operations && i.serviceId.Some? {
        DispatchTold(s, AuthorizeStep(ChildDispatch(i, s.steps[child.value])), fault);
      }
      hide DecideAuthorizeOperation, DecideAuthorizeStep, StepsOf, Truthful, Commit;
    } else {
      hide HasDispatchEvent;
    }
  }

  lemma CallTold(s: State, c: Call, fault: bool)
    requires Structural(s)
    ensures Told(s, c, Decide(s, c, fault).effect)
  {
    hide Decide, Told, OneChild;
    match c {
      case Claim(_) => ClaimTold(s, c, fault);
      case ClaimParent(_) => ParentClaimTold(s, c, fault);
      case ReplayParent(_) => ReplayTold(s, c, fault);
      case AuthorizeStep(_) => DispatchTold(s, c, fault);
      case TransitionStep(_) => StepTransitionTold(s, c, fault);
      case FinalizeStep(_) => FinalizationTold(s, c, fault);
      case RecoverStep(_, _, _, _) => RecoveryTold(s, c, fault);
      case RejectBeforeOwnership(_, _, _, _) => RejectionTold(s, c, fault);
      case AuthorizeOperation(i) => AuthorizationTold(s, i, fault);
      case _ => OperationCallsTold(s, c, fault);
    }
  }

  /** An event past the old log was written by this call. */
  lemma NewEventTold(s: State, c: Call, fault: bool, id: Id, k: nat)
    requires Structural(s) && |AuditsOf(s, id)| <= k < |AuditsOf(Next(s, c, fault), id)|
    ensures var t := Next(s, c, fault);
            CallTime(c) == Some(AuditsOf(t, id)[k].timestamp) && Truthful(t, AuditsOf(t, id)[k], id)
  {
    hide Decide, Structural, Truthful, CommitOperation, CommitStep, CommitClaim, CommitLock, CommitFence;
    CallTold(s, c, fault);
  }

  lemma OldEventKept(s: State, t: State, id: Id, k: nat)
    requires LogsEvolve(s, t) && k < |AuditsOf(s, id)|
    ensures k < |AuditsOf(t, id)| && AuditsOf(t, id)[k] == AuditsOf(s, id)[k]
  {
  }

  /**
   * Every event in a log was written by one call of the run. It bears that call's time, it names the operation
   * and step it is about, and the status it gives is the one that call left.
   */
  lemma {:induction false} EventsAreTrue(run: seq<Input>, n: nat, id: Id, k: nat) returns (j: nat)
    requires GoodRun(run) && n <= |run| && k < |AuditsOf(StateAt(run, n), id)|
    ensures j < n && |AuditsOf(StateAt(run, j), id)| <= k < |AuditsOf(StateAt(run, j + 1), id)|
    ensures AuditsOf(StateAt(run, j + 1), id)[k] == AuditsOf(StateAt(run, n), id)[k]
    ensures CallTime(run[j].call) == Some(AuditsOf(StateAt(run, n), id)[k].timestamp)
    ensures Truthful(StateAt(run, j + 1), AuditsOf(StateAt(run, n), id)[k], id)
    decreases n
  {
    hide StateAt, AuditsOf, Truthful, Next, Structural, Disciplined, LogsEvolve, CallTime;
    assert AuditsOf(EmptyState, id) == [] by { EmptyLogs(id); }
    StartsEmpty(run);
    assert n > 0;
    if k < |AuditsOf(StateAt(run, n - 1), id)| {
      j := EventsAreTrue(run, n - 1, id, k);
      assert LogsEvolve(StateAt(run, n - 1), StateAt(run, n)) by {
        hide RowsEvolve, LocksEvolve;
        RunEvolves(run, n - 1, n);
      }
      OldEventKept(StateAt(run, n - 1), StateAt(run, n), id, k);
    } else {
      j := n - 1;
      ReachableStructural(run, j);
      NextState(run, j);
      NewEventTold(StateAt(run, j), run[j].call, run[j].fault, id, k);
    }
  }

  lemma EmptyLogs(id: Id)
    ensures AuditsOf(EmptyState, id) == []
  {
  }

  // ---------------------------------------------------------------- the way to a final status

  /** Where a path last came to the status it has at `n`. */
  lemma {:induction false} Arrival(path: seq<ActionStatus>, n: nat) returns (k: nat)
    requires n < |path| && path[0] == Validated && path[n] != Validated
    requires forall i :: 0 < i < |path| ==> PathEdge(path[i - 1], path[i])
    ensures k < n && path[k] != path[n] && PathEdge(path[k], path[n])
    decreases n
  {
    k := n - 1;
    if path[n - 1] == path[n] { k := Arrival(path, n - 1); }
  }

  /** A legal path to SUCCEEDED passes EXECUTING and, after it, VERIFYING. */
  lemma PathToSuccess(path: seq<ActionStatus>)
    requires LegalPath(path, Succeeded)
    ensures exists a, b :: 0 <= a < b < |path| && path[a] == Executing && path[b] == Verifying
  {
    var b := Arrival(path, |path| - 1);
    assert path[b] == Verifying;
    var a := Arrival(path, b);
    assert path[a] == Executing;
  }

  /** A step that succeeded is on record as executing and, after that, as verifying. */
  lemma SuccessWasVerified(run: seq<Input>, n: nat, stepId: Id)
    requires GoodRun(run) && n <= |run| && stepId in StateAt(run, n).steps && StateAt(run, n).steps[stepId].verdict.status == Succeeded
    ensures var path := StatusPath(AuditsOf(StateAt(run, n), StateAt(run, n).steps[stepId].parentId), stepId);
            exists a, b :: 0 <= a < b < |path| && path[a] == Executing && path[b] == Verifying
  {
    hide StateAt, StatusPath, AuditsOf, LegalPath, Disciplined;
    StepHistoryIsLegal(run, n, stepId);
    PathToSuccess(StatusPath(AuditsOf(StateAt(run, n), StateAt(run, n).steps[stepId].parentId), stepId));
  }
}
