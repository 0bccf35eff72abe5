/**
 * Where rows come from and what a dispatch was authorised for, over whole runs: every row
 * goes back to the claim that created it, and every answer to a later call to that claim's input.
 */
module MutationOrigins {
  import opened Basics
  import opened ActionStatuses
  import opened Aggregation
  import opened MutationModel
  import opened MutationInvariants
  import opened MutationCalls
  import opened MutationRuns
  import opened MutationTheorems
  import ClaimKeys

  // ---------------------------------------------------------------- the claim behind a row

  function ClaimOf(c: Call): Option<ClaimInput> {
    match c
    case Claim(i) => Some(i)
    case ClaimParent(i) => Some(i.claim)
    case _ => None
  }

  /** The operation stands for this request. */
  predicate FromClaim(op: Operation, i: ClaimInput) {
    op.plan == i.plan && op.fingerprint == i.fingerprint && op.deadlineAt == i.deadlineAt && op.createdAt == i.now
  }

  /** The step stands for this request's target. */
  predicate FromParent(st: Step, i: ParentClaimInput) {
    && st.id == i.stepId && st.parentId == i.claim.plan.operationId
    && st.origin.target == i.target && st.origin.evidence == i.evidence && st.origin.sequence == 1
    && st.origin.deadlineAt == i.claim.deadlineAt && st.origin.createdAt == i.claim.now
  }

  predicate SameRequest(a: Operation, b: Operation) {
    a.plan == b.plan && a.fingerprint == b.fingerprint && a.deadlineAt == b.deadlineAt && a.createdAt == b.createdAt
  }

  /** A row written by a call is an old one with its request unchanged, or a new one of the claim just made. */
  ghost predicate RowsTraced(s: State, c: Call, d: Decision) {
    && (d.effect.operation.Some? ==>
          var op := d.effect.operation.value;
          if op.plan.operationId in s.operations then SameRequest(op, s.operations[op.plan.operationId])
          else ClaimOf(c).Some? && FromClaim(op, ClaimOf(c).value) && Creates(c, d.reply, op.plan.operationId))
    && (d.effect.step.Some? ==>
          var st := d.effect.step.value;
          if st.id in s.steps then st.parentId == s.steps[st.id].parentId && st.origin == s.steps[st.id].origin
          else c.ClaimParent? && FromParent(st, c.parent) && d.reply == Created(st.parentId))
  }

  /** The reply of a creating call; `claim` creates even when its audit write fails. */
  predicate Creates(c: Call, reply: Reply, id: Id) {
    reply == Created(id) || (c.Claim? && reply == Failure(AuditPersistenceFailed))
  }

  lemma ClaimsTraced(s: State, c: Call, fault: bool)
    requires c.Claim? || c.ClaimParent? || c.ReplayParent?
    ensures RowsTraced(s, c, Decide(s, c, fault))
  {
    hide ParentClaimProblem, ClaimKeys.ClaimKey, MakeEvent;
  }

  lemma StepCallsTraced(s: State, c: Call, fault: bool)
    requires Keyed(s) && (c.RejectBeforeOwnership? || c.AuthorizeStep? || c.TransitionStep?)
    ensures RowsTraced(s, c, Decide(s, c, fault))
  {
    hide ChildThenParent, NextEvent, SoleVerdict, TransitionAllowed, EffectChangeAllowed, Owns;
  }

  lemma EndingsTraced(s: State, c: Call, fault: bool)
    requires Keyed(s) && (c.FinalizeStep? || c.RecoverStep?)
    ensures RowsTraced(s, c, Decide(s, c, fault))
  {
    hide ChildThenParent, NextEvent, SoleVerdict, TransitionAllowed, RecoveryAllowed, EffectChangeAllowed, Owns, RecoveryStatus,
         TerminalEffectAllowed;
  }

  lemma OtherCallsTraced(s: State, c: Call, fault: bool)
    requires Keyed(s) && !c.Claim? && !c.ClaimParent? && !c.ReplayParent? && !c.AuthorizeOperation?
    requires !c.RejectBeforeOwnership? && !c.AuthorizeStep? && !c.TransitionStep? && !c.FinalizeStep? && !c.RecoverStep?
    ensures RowsTraced(s, c, Decide(s, c, fault))
  {
    hide NextEvent, TransitionAllowed;
  }

  /** An operation-level request on an operation with one step is the step-level one. */
  lemma ForwardedDispatch(s: State, i: DispatchInput, fault: bool, child: Id)
    requires StepsOf(s, i.operationId) == {child}
    ensures DecideAuthorizeOperation(s, i, fault) ==
            if i.operationId !in s.operations then Refuse(PersistenceFailed)
            else if i.serviceId.None? then Refuse(StaleOwnership)
            else DecideAuthorizeStep(s, ChildDispatch(i, s.steps[child]), fault)
  {
    hide DecideAuthorizeStep, ChildDispatch;
    assert child in StepsOf(s, i.operationId);
    forall id | id in StepsOf(s, i.operationId) ensures id == child { assert id in {child}; }
  }

  /** Whether it has one step or none decides what an operation-level request becomes. */
  lemma OneOrNone(s: State, id: Id) returns (child: Option<Id>)
    requires Structural(s)
    ensures StepsOf(s, id) == if child.Some? then {child.value} else {}
    ensures child.Some? ==> child.value in s.steps && s.steps[child.value].parentId == id && s.steps[child.value].id == child.value
  {
    if StepsOf(s, id) == {} {
      child := None;
    } else {
      var c :| c in StepsOf(s, id);
      child := Some(c);
      forall d | d in StepsOf(s, id) ensures d == c {}
      assert StepsOf(s, id) == {c};
    }
  }

  lemma AuthorizationTraced(s: State, i: DispatchInput, fault: bool)
    requires Structural(s)
    ensures RowsTraced(s, AuthorizeOperation(i), DecideAuthorizeOperation(s, i, fault))
  {
    var child := OneOrNone(s, i.operationId);
    if child.Some? {
      ForwardedDispatch(s, i, fault, child.value);
      hide DecideAuthorizeOperation, NextEvent, StepsOf;
    } else {
      hide NextEvent;
    }
  }

  lemma CallTraced(s: State, c: Call, fault: bool)
    requires Structural(s)
    ensures RowsTraced(s, c, Decide(s, c, fault))
  {
    hide Decide, RowsTraced, OneChild;
    match c {
      case Claim(_) => ClaimsTraced(s, c, fault);
      case ClaimParent(_) => ClaimsTraced(s, c, fault);
      case ReplayParent(_) => ClaimsTraced(s, c, fault);
      case RejectBeforeOwnership(_, _, _, _) => StepCallsTraced(s, c, fault);
      case AuthorizeStep(_) => StepCallsTraced(s, c, fault);
      case TransitionStep(_) => StepCallsTraced(s, c, fault);
      case FinalizeStep(_) => EndingsTraced(s, c, fault);
      case RecoverStep(_, _, _, _) => EndingsTraced(s, c, fault);
      case AuthorizeOperation(i) =>
        AuthorizationTraced(s, i, fault);
        AuthorizationIs(s, i, fault);
      case _ => OtherCallsTraced(s, c, fault);
    }
  }

  lemma AuthorizationIs(s: State, i: DispatchInput, fault: bool)
    ensures Decide(s, AuthorizeOperation(i), fault) == DecideAuthorizeOperation(s, i, fault)
  {
  }

  lemma OperationBefore(s: State, c: Call, fault: bool, id: Id)
    requires Structural(s) && id in Next(s, c, fault).operations
    ensures var op := Next(s, c, fault).operations[id];
            if id in s.operations then SameRequest(op, s.operations[id])
            else ClaimOf(c).Some? && FromClaim(op, ClaimOf(c).value) && ClaimOf(c).value.plan.operationId == id
                 && Creates(c, Decide(s, c, fault).reply, id)
  {
    hide Decide, Structural, Creates, FromParent;
    CallTraced(s, c, fault);
  }

  lemma StepBefore(s: State, c: Call, fault: bool, id: Id)
    requires Structural(s) && id in Next(s, c, fault).steps
    ensures var st := Next(s, c, fault).steps[id];
            if id in s.steps then st.parentId == s.steps[id].parentId && st.origin == s.steps[id].origin && st.id == s.steps[id].id
            else c.ClaimParent? && FromParent(st, c.parent) && Decide(s, c, fault).reply == Created(st.parentId)
  {
    hide Decide, OneChild, Creates, FromClaim, FromParent, SameRequest;
    CallTraced(s, c, fault);
    assert Keyed(s);
  }

  lemma StartsEmpty(run: seq<Input>)
    ensures StateAt(run, 0) == EmptyState
  {
  }

  lemma NextState(run: seq<Input>, n: nat)
    requires n < |run|
    ensures StateAt(run, n + 1) == Next(StateAt(run, n), run[n].call, run[n].fault)
    ensures ReplyAt(run, n) == Decide(StateAt(run, n), run[n].call, run[n].fault).reply
  {
  }

  lemma ReachableStructural(run: seq<Input>, n: nat)
    requires GoodRun(run) && n <= |run|
    ensures Structural(StateAt(run, n)) && Keyed(StateAt(run, n))
  {
    hide Disciplined, StateAt;
    ReachableInv(run, n);
  }

  /** Call `k` of the run created operation `id` from the given input. */
  ghost predicate CreatedAt(run: seq<Input>, k: nat, id: Id, i: ClaimInput) {
    && k < |run| && ClaimOf(run[k].call) == Some(i) && i.plan.operationId == id && Creates(run[k].call, ReplyAt(run, k), id)
    && id !in StateAt(run, k).operations && id in StateAt(run, k + 1).operations
  }

  /** Every operation goes back to the claim that created it, and still stands for its request. */
  lemma {:induction false} OperationOrigin(run: seq<Input>, n: nat, id: Id) returns (k: nat)
    requires GoodRun(run) && n <= |run| && id in StateAt(run, n).operations
    ensures k < n && ClaimOf(run[k].call).Some? && CreatedAt(run, k, id, ClaimOf(run[k].call).value)
    ensures FromClaim(StateAt(run, n).operations[id], ClaimOf(run[k].call).value)
    decreases n
  {
    hide StateAt, ReplyAt, Next, Decide, Disciplined, Creates, Structural, FromParent;
    StartsEmpty(run);
    ReachableStructural(run, n - 1);
    NextState(run, n - 1);
    OperationBefore(StateAt(run, n - 1), run[n - 1].call, run[n - 1].fault, id);
    if id in StateAt(run, n - 1).operations {
      k := OperationOrigin(run, n - 1, id);
    } else {
      k := n - 1;
    }
  }

  /** Every step goes back to the parent claim that created it, and still stands for its target. */
  lemma {:induction false} StepOrigin(run: seq<Input>, n: nat, stepId: Id) returns (k: nat)
    requires GoodRun(run) && n <= |run| && stepId in StateAt(run, n).steps
    ensures k < n && run[k].call.ClaimParent? && FromParent(StateAt(run, n).steps[stepId], run[k].call.parent)
    ensures ReplyAt(run, k) == Created(StateAt(run, n).steps[stepId].parentId)
    decreases n
  {
    hide StateAt, ReplyAt, Next, Decide, Disciplined, Structural, FromClaim;
    StartsEmpty(run);
    ReachableStructural(run, n - 1);
    NextState(run, n - 1);
    StepBefore(StateAt(run, n - 1), run[n - 1].call, run[n - 1].fault, stepId);
    if stepId in StateAt(run, n - 1).steps {
      k := StepOrigin(run, n - 1, stepId);
    } else {
      k := n - 1;
    }
  }

  /** What a parent claim had to satisfy to be answered with a creation. */
  ghost predicate WellFormed(i: ParentClaimInput) {
    var plan := i.claim.plan;
    && plan.serviceId == None && plan.containerId == None && i.fingerprintMatches && i.patternsMatch
    && i.target.applicationId == plan.applicationId && i.target.action == plan.action && i.target.executionDomain == plan.executionDomain
    && plan.operationKey == "application:" + plan.applicationId
    && i.evidence.snapshotAt <= i.claim.now && i.claim.now < i.claim.expiresAt && i.claim.now < i.claim.deadlineAt
  }

  lemma WellFormedIff(i: ParentClaimInput)
    ensures WellFormed(i) <==> ParentClaimProblem(i).None?
  {
  }

  lemma CreationWellFormed(s: State, i: ParentClaimInput, fault: bool)
    requires Decide(s, ClaimParent(i), fault).reply.Created?
    ensures WellFormed(i) && !fault
  {
    hide ClaimKeys.ClaimKey, WellFormed, ParentClaimProblem;
    WellFormedIff(i);
  }

  /** In every reachable state a step acts on the application, with the action and in the domain, that its operation was claimed for. */
  lemma StepFitsOperation(run: seq<Input>, n: nat, stepId: Id)
    requires GoodRun(run) && n <= |run| && stepId in StateAt(run, n).steps
    ensures var st := StateAt(run, n).steps[stepId];
            && st.parentId in StateAt(run, n).operations
            && var op := StateAt(run, n).operations[st.parentId];
               && st.origin.target.applicationId == op.plan.applicationId && st.origin.target.action == op.plan.action
               && st.origin.target.executionDomain == op.plan.executionDomain
               && op.plan.operationKey == "application:" + op.plan.applicationId
               && op.plan.serviceId == None && op.plan.containerId == None
               && st.origin.createdAt == op.createdAt < st.origin.deadlineAt == op.deadlineAt
               && st.origin.evidence.snapshotAt <= op.createdAt
  {
    hide StateAt, Decide, Disciplined, Creates, Structural;
    ReachableStructural(run, n);
    var st := StateAt(run, n).steps[stepId];
    var k := StepOrigin(run, n, stepId);
    CreationWellFormed(StateAt(run, k), run[k].call.parent, run[k].fault);
    var j := OperationOrigin(run, n, st.parentId);
    CreatedOnce(run, j, k, st.parentId);
  }

  lemma CreatedReply(s: State, c: Call, fault: bool)
    requires Decide(s, c, fault).reply.Created?
    ensures ClaimOf(c).Some? && Decide(s, c, fault).reply == Created(ClaimOf(c).value.plan.operationId)
    ensures ClaimOf(c).value.plan.operationId !in s.operations
    ensures Next(s, c, fault).operations == s.operations[ClaimOf(c).value.plan.operationId := FreshOperation(ClaimOf(c).value)]
  {
    hide ClaimKeys.ClaimKey, MakeEvent, ParentClaimProblem, DecideAuthorizeOperation;
    if c.AuthorizeOperation? { AuthorizationShape(s, c.dispatch, fault); }
  }

  /** An operation is created once. */
  lemma CreatedOnce(run: seq<Input>, j: nat, k: nat, id: Id)
    requires GoodRun(run) && k < |run| && ReplyAt(run, k) == Created(id)
    requires j < |run| && ClaimOf(run[j].call).Some? && CreatedAt(run, j, id, ClaimOf(run[j].call).value)
    ensures j == k
  {
    hide StateAt, Decide, Disciplined, Creates, LocksEvolve, LogsEvolve, OperationEvolves, StepEvolves, Next;
    NextState(run, k);
    CreatedReply(StateAt(run, k), run[k].call, run[k].fault);
    if j < k {
      RunEvolves(run, j + 1, k);
    } else if k < j {
      RunEvolves(run, k + 1, j);
    }
  }

  // ---------------------------------------------------------------- what a dispatch is authorised for

  /** The operation holds the key with this token, and its lease has not expired. */
  predicate LiveOwner(s: State, id: Id, key: Id, token: nat, now: int) {
    && id in s.operations && s.operations[id].plan.operationKey == key && s.operations[id].token == Some(token)
    && key in s.locks && s.locks[key].owner == id && s.locks[key].token == token && s.locks[key].expiresAt > now
  }

  /** An executing step that was not dispatched yet. */
  predicate AwaitsDispatch(s: State, id: Id, stepId: Id) {
    stepId in s.steps && s.steps[stepId].parentId == id && s.steps[stepId].verdict.status == Executing && s.steps[stepId].dispatch.None?
  }

  /** Only the step's mark and its log have changed; the mark names time and token, the log the step and its target. */
  ghost predicate Marked(s: State, t: State, id: Id, stepId: Id, token: nat, now: int)
    requires id in s.operations && stepId in s.steps && s.steps[stepId].parentId == id
  {
    && t.operations == s.operations && t.locks == s.locks && t.fences == s.fences && t.claims == s.claims
    && t.steps == s.steps[stepId := s.steps[stepId].(dispatch := Some(Dispatch(now, token)), token := Some(token),
                                                     progress := s.steps[stepId].progress.(updatedAt := now))]
    && |AuditsOf(t, id)| == |AuditsOf(s, id)| + 1 && AuditsOf(s, id) <= AuditsOf(t, id)
    && var e := AuditsOf(t, id)[|AuditsOf(s, id)|];
       && e.eventType == DispatchEvent && e.childStepId == Some(stepId) && e.timestamp == now && e.status == Executing && e.reason == None
       && e.subject.containerId == Some(s.steps[stepId].origin.target.containerId)
       && e.subject.serviceId == Some(s.steps[stepId].origin.target.serviceId)
  }

  lemma StepDispatchIff(s: State, i: StepDispatchInput, fault: bool)
    requires Keyed(s)
    ensures var d := Decide(s, AuthorizeStep(i), fault);
            && (d.reply == Done <==>
                  && !fault && AwaitsDispatch(s, i.operationId, i.stepId) && LiveOwner(s, i.operationId, i.operationKey, i.token, i.now)
                  && s.steps[i.stepId].origin.target == i.target)
            && (d.reply == Done ==> Marked(s, Next(s, AuthorizeStep(i), fault), i.operationId, i.stepId, i.token, i.now))
            && (d.reply != Done ==> d.reply.Failure? && Next(s, AuthorizeStep(i), fault) == s)
  {
    hide NextEvent, Marked, Commit;
    if Decide(s, AuthorizeStep(i), fault).reply == Done { DispatchMarks(s, i, fault); }
    CommitNone(s);
  }

  lemma DispatchMarks(s: State, i: StepDispatchInput, fault: bool)
    requires Keyed(s) && Decide(s, AuthorizeStep(i), fault).reply == Done
    ensures i.operationId in s.operations && i.stepId in s.steps && s.steps[i.stepId].parentId == i.operationId
    ensures Marked(s, Next(s, AuthorizeStep(i), fault), i.operationId, i.stepId, i.token, i.now)
  {
  }

  /**
   * A step dispatch is authorised for exactly the target of the claim that created the step, in every
   * field, and only for the live owner of an executing step that was not dispatched before.
   */
  lemma StepDispatchTarget(run: seq<Input>, n: nat) returns (k: nat)
    requires GoodRun(run) && n < |run| && run[n].call.AuthorizeStep? && ReplyAt(run, n) == Done
    ensures var i := run[n].call.stepDispatch;
            && k < n && run[k].call.ClaimParent? && ReplyAt(run, k) == Created(i.operationId)
            && run[k].call.parent.stepId == i.stepId && run[k].call.parent.target == i.target
            && LiveOwner(StateAt(run, n), i.operationId, i.operationKey, i.token, i.now)
            && AwaitsDispatch(StateAt(run, n), i.operationId, i.stepId)
            && Marked(StateAt(run, n), StateAt(run, n + 1), i.operationId, i.stepId, i.token, i.now)
  {
    hide StateAt, Decide, Disciplined, Structural, Marked, Next;
    ReachableStructural(run, n);
    NextState(run, n);
    StepDispatchIff(StateAt(run, n), run[n].call.stepDispatch, run[n].fault);
    k := StepOrigin(run, n, run[n].call.stepDispatch.stepId);
  }

  lemma ParentCreatesStep(s: State, i: ParentClaimInput, fault: bool)
    requires Decide(s, ClaimParent(i), fault).reply.Created?
    ensures var t := Next(s, ClaimParent(i), fault);
            i.stepId in t.steps && FromParent(t.steps[i.stepId], i)
  {
    hide ParentClaimProblem, ClaimKeys.ClaimKey, MakeEvent;
  }

  /** The step's target, from the claim that created it up to any later state. */
  lemma TargetKept(run: seq<Input>, k: nat, n: nat)
    requires GoodRun(run) && k < n <= |run| && run[k].call.ClaimParent? && ReplyAt(run, k).Created?
    ensures var i := run[k].call.parent;
            i.stepId in StateAt(run, n).steps && StateAt(run, n).steps[i.stepId].parentId == i.claim.plan.operationId
            && StateAt(run, n).steps[i.stepId].origin.target == i.target
  {
    hide StateAt, Disciplined, LocksEvolve, LogsEvolve, OperationEvolves, Next, Decide;
    NextState(run, k);
    ParentCreatesStep(StateAt(run, k), run[k].call.parent, run[k].fault);
    RunEvolves(run, k + 1, n);
  }

  /** Asked for any other target, a step is not dispatched: nothing changes. */
  lemma OtherTargetRefused(run: seq<Input>, k: nat, n: nat)
    requires GoodRun(run) && k < n < |run| && run[k].call.ClaimParent? && ReplyAt(run, k).Created?
    requires run[n].call.AuthorizeStep? && run[n].call.stepDispatch.stepId == run[k].call.parent.stepId
    requires run[n].call.stepDispatch.target != run[k].call.parent.target
    ensures ReplyAt(run, n).Failure? && StateAt(run, n + 1) == StateAt(run, n)
  {
    hide StateAt, Decide, Disciplined, Structural, Next, Marked;
    ReachableStructural(run, n);
    NextState(run, n);
    TargetKept(run, k, n);
    StepDispatchIff(StateAt(run, n), run[n].call.stepDispatch, run[n].fault);
  }

  /** What an operation-level request names, against the plan of an operation without steps. */
  predicate NamesPlan(i: DispatchInput, plan: ActionPlan) {
    && i.action == plan.action && i.applicationId == plan.applicationId && i.serviceId == plan.serviceId
    && Some(i.containerId) == plan.containerId && i.executionDomain == plan.executionDomain
  }

  /** The same against the target of an operation's step. */
  predicate NamesTarget(i: DispatchInput, target: Target) {
    && i.action == target.action && i.applicationId == target.applicationId && i.serviceId == Some(target.serviceId)
    && i.containerId == target.containerId && i.executionDomain == target.executionDomain
  }

  /** Only the log has changed: one dispatch event about the operation itself. */
  ghost predicate Logged(s: State, t: State, id: Id, now: int) {
    && t.operations == s.operations && t.steps == s.steps && t.locks == s.locks && t.fences == s.fences && t.claims == s.claims
    && |AuditsOf(t, id)| == |AuditsOf(s, id)| + 1 && AuditsOf(s, id) <= AuditsOf(t, id)
    && var e := AuditsOf(t, id)[|AuditsOf(s, id)|];
       e.eventType == DispatchEvent && e.childStepId == None && e.timestamp == now && e.status == Executing
  }

  lemma SteplessDispatchIff(s: State, i: DispatchInput, fault: bool)
    requires Keyed(s) && StepsOf(s, i.operationId) == {}
    ensures var d := Decide(s, AuthorizeOperation(i), fault);
            && (d.reply == Done <==>
                  && !fault && LiveOwner(s, i.operationId, i.operationKey, i.token, i.now)
                  && s.operations[i.operationId].verdict.status == Executing && NamesPlan(i, s.operations[i.operationId].plan)
                  && !HasDispatchEvent(AuditsOf(s, i.operationId)))
            && (d.reply == Done ==> Logged(s, Next(s, AuthorizeOperation(i), fault), i.operationId, i.now))
            && (d.reply != Done ==> d.reply.Failure? && Next(s, AuthorizeOperation(i), fault) == s)
  {
    hide NextEvent, Logged, Commit;
    if Decide(s, AuthorizeOperation(i), fault).reply == Done { DispatchLogs(s, i, fault); }
    CommitNone(s);
  }

  lemma DispatchLogs(s: State, i: DispatchInput, fault: bool)
    requires Keyed(s) && StepsOf(s, i.operationId) == {} && Decide(s, AuthorizeOperation(i), fault).reply == Done
    ensures Logged(s, Next(s, AuthorizeOperation(i), fault), i.operationId, i.now)
  {
    hide HasDispatchEvent;
  }

  lemma ForwardedDispatchIff(s: State, i: DispatchInput, fault: bool, child: Id)
    requires Keyed(s) && StepsOf(s, i.operationId) == {child}
    ensures child in s.steps
    ensures var d := Decide(s, AuthorizeOperation(i), fault);
            && (d.reply == Done <==>
                  && !fault && AwaitsDispatch(s, i.operationId, child) && LiveOwner(s, i.operationId, i.operationKey, i.token, i.now)
                  && NamesTarget(i, s.steps[child].origin.target))
            && (d.reply == Done ==> Marked(s, Next(s, AuthorizeOperation(i), fault), i.operationId, child, i.token, i.now))
            && (d.reply != Done ==> d.reply.Failure? && Next(s, AuthorizeOperation(i), fault) == s)
  {
    hide DecideAuthorizeStep, DecideAuthorizeOperation, Commit, Marked;
    assert child in StepsOf(s, i.operationId);
    ForwardedDispatch(s, i, fault, child);
    AuthorizationIs(s, i, fault);
    CommitNone(s);
    if i.operationId in s.operations && i.serviceId.Some? {
      var forwarded := ChildDispatch(i, s.steps[child]);
      StepDispatchIff(s, forwarded, fault);
      assert Decide(s, AuthorizeStep(forwarded), fault) == DecideAuthorizeStep(s, forwarded, fault);
      assert Next(s, AuthorizeStep(forwarded), fault) == Next(s, AuthorizeOperation(i), fault);
      assert forwarded.target == s.steps[child].origin.target <==> NamesTarget(i, s.steps[child].origin.target);
    }
  }

  /**
   * The same for a dispatch asked for through the operation: without steps it names what the operation
   * was claimed for, and with one what its step was; anything else changes nothing.
   */
  lemma OperationDispatchTarget(run: seq<Input>, n: nat) returns (k: nat)
    requires GoodRun(run) && n < |run| && run[n].call.AuthorizeOperation? && ReplyAt(run, n) == Done
    ensures var i, s, t := run[n].call.dispatch, StateAt(run, n), StateAt(run, n + 1);
            && LiveOwner(s, i.operationId, i.operationKey, i.token, i.now) && k < n
            && if StepsOf(s, i.operationId) == {} then
                 && ClaimOf(run[k].call).Some? && CreatedAt(run, k, i.operationId, ClaimOf(run[k].call).value)
                 && NamesPlan(i, ClaimOf(run[k].call).value.plan) && s.operations[i.operationId].verdict.status == Executing
                 && !HasDispatchEvent(AuditsOf(s, i.operationId)) && Logged(s, t, i.operationId, i.now)
               else
                 && run[k].call.ClaimParent? && ReplyAt(run, k) == Created(i.operationId) && NamesTarget(i, run[k].call.parent.target)
                 && AwaitsDispatch(s, i.operationId, run[k].call.parent.stepId)
                 && Marked(s, t, i.operationId, run[k].call.parent.stepId, i.token, i.now)
  {
    hide StateAt, Decide, Disciplined, Structural, Marked, Logged, Next, Creates, HasDispatchEvent, NamesTarget;
    ReachableStructural(run, n);
    NextState(run, n);
    var s, i := StateAt(run, n), run[n].call.dispatch;
    var child := OneOrNone(s, i.operationId);
    hide StepsOf;
    if child.Some? {
      ForwardedDispatchIff(s, i, run[n].fault, child.value);
      k := StepOrigin(run, n, child.value);
    } else {
      SteplessDispatchIff(s, i, run[n].fault);
      k := OperationOrigin(run, n, i.operationId);
    }
  }

  /** A refused dispatch, of a step or of an operation, changes nothing. */
  lemma RefusedDispatchChangesNothing(run: seq<Input>, n: nat)
    requires GoodRun(run) && n < |run| && (run[n].call.AuthorizeStep? || run[n].call.AuthorizeOperation?) && ReplyAt(run, n) != Done
    ensures ReplyAt(run, n).Failure? && StateAt(run, n + 1) == StateAt(run, n)
  {
    hide StateAt, Decide, Disciplined, Structural, Marked, Logged, Next, StepsOf, HasDispatchEvent, NamesTarget;
    ReachableStructural(run, n);
    NextState(run, n);
    var s := StateAt(run, n);
    match run[n].call {
      case AuthorizeStep(i) => StepDispatchIff(s, i, run[n].fault);
      case AuthorizeOperation(i) =>
        var child := OneOrNone(s, i.operationId);
        if child.Some? { ForwardedDispatchIff(s, i, run[n].fault, child.value); } else { SteplessDispatchIff(s, i, run[n].fault); }
    }
  }

  // ---------------------------------------------------------------- the window of a claim, from its own input

  /** A creation records exactly this claim: its request, its operation and the end of its window. */
  lemma CreationEntry(s: State, c: Call, fault: bool)
    requires Decide(s, c, fault).reply.Created?
    ensures ClaimOf(c).Some? && Claimant(c).Some?
    ensures var i, t := ClaimOf(c).value, Next(s, c, fault);
            var key := ClaimKeys.ClaimKey(Claimant(c).value.0, Claimant(c).value.1);
            && key in t.claims && t.claims[key].operationId == i.plan.operationId && t.claims[key].fingerprint == i.fingerprint
            && t.claims[key].expiresAt == i.expiresAt
  {
    hide ClaimKeys.ClaimKey, MakeEvent, ParentClaimProblem, DecideAuthorizeOperation;
    if c.AuthorizeOperation? { AuthorizationShape(s, c.dispatch, fault); }
  }

  /** An operation created without steps never gets any. */
  lemma {:induction false} StaysStepless(run: seq<Input>, i: nat, j: nat, id: Id)
    requires GoodRun(run) && i <= j <= |run| && id in StateAt(run, i).operations && StepsOf(StateAt(run, i), id) == {}
    ensures StepsOf(StateAt(run, j), id) == {}
    decreases j
  {
    hide StateAt, Next, Disciplined, Inv, StepsOf;
    if i < j {
      StaysStepless(run, i, j - 1, id);
      assert id in StateAt(run, j - 1).operations by {
        hide LocksEvolve, LogsEvolve, OperationEvolves, StepEvolves;
        RunEvolves(run, i, j - 1);
      }
      ReachableInv(run, j - 1);
      NextState(run, j - 1);
      SteplessKept(StateAt(run, j - 1), run[j - 1].call, run[j - 1].fault, id);
    }
  }

  lemma SteplessKept(s: State, c: Call, fault: bool, id: Id)
    requires Inv(s) && Disciplined(s, c) && id in s.operations && StepsOf(s, id) == {}
    ensures StepsOf(Next(s, c, fault), id) == {}
  {
    hide Decide, Inv, Disciplined, LawfulOperation, LawfulLock, LawfulLog,
         CommitOperation, CommitClaim, CommitLock, CommitFence, CommitLog;
    CallLawful(s, c, fault);
    var t := Next(s, c, fault);
    forall st | st in t.steps ensures t.steps[st].parentId != id {
      if st in s.steps { assert st !in StepsOf(s, id); }
    }
  }

  /** How many steps a created operation has, ever after. */
  lemma StepsOfCreation(run: seq<Input>, i: nat, j: nat, id: Id)
    requires GoodRun(run) && i < j <= |run| && ReplyAt(run, i) == Created(id)
    ensures |StepsOf(StateAt(run, j), id)| == if run[i].call.ClaimParent? then 1 else 0
  {
    hide StateAt, Decide, Disciplined, Next;
    var s := StateAt(run, i);
    CreatedReply(s, run[i].call, run[i].fault);
    ReachableStructural(run, i);
    ReachableStructural(run, j);
    NextState(run, i);
    hide Structural;
    if run[i].call.ClaimParent? {
      TargetKept(run, i, j);
      var stepId := run[i].call.parent.stepId;
      assert stepId in StepsOf(StateAt(run, j), id);
      var child := OneOrNone(StateAt(run, j), id);
    } else {
      NoStepCreated(s, run[i].call, run[i].fault, id);
      StaysStepless(run, i + 1, j, id);
    }
  }

  lemma NoStepCreated(s: State, c: Call, fault: bool, id: Id)
    requires Keyed(s) && c.Claim? && id !in s.operations && Decide(s, c, fault).reply == Created(id)
    ensures StepsOf(Next(s, c, fault), id) == {} && id in Next(s, c, fault).operations
  {
    hide ClaimKeys.ClaimKey, MakeEvent;
  }

  /**
   * From the creating call's own input: until its window ends, every claim, parent claim or replay by the
   * same actor and key is answered with that operation if it repeats the request, and with a conflict if not.
   */
  lemma CreationAnswers(run: seq<Input>, i: nat, j: nat)
    requires GoodRun(run) && TimeMovesForward(run) && i < j < |run| && ReplyAt(run, i).Created?
    requires ClaimOf(run[i].call).Some? && Claimant(run[j].call).Some? && Claimant(run[j].call) == Claimant(run[i].call)
    requires CallTime(run[j].call).value < ClaimOf(run[i].call).value.expiresAt
    requires run[j].call.ClaimParent? ==> WellFormed(run[j].call.parent)
    ensures var claim := ClaimOf(run[i].call).value;
            ReplyAt(run, j) ==
              if ClaimedFingerprint(run[j].call) != claim.fingerprint then Failure(IdempotencyConflict)
              else if run[j].call.ReplayParent? && run[i].call.Claim? then Failure(PersistenceFailed)
              else if run[j].fault then Failure(AuditPersistenceFailed)
              else Replayed(claim.plan.operationId)
    ensures StateAt(run, j + 1).operations == StateAt(run, j).operations
  {
    hide StateAt, Decide, ClaimKeys.ClaimKey, Next, ParentClaimProblem, WellFormed, StepsOf, Structural, Disciplined;
    NextState(run, i);
    NextState(run, j);
    var s := StateAt(run, j);
    var claim, who := ClaimOf(run[i].call).value, Claimant(run[i].call).value;
    var key := ClaimKeys.ClaimKey(who.0, who.1);
    CreationEntry(StateAt(run, i), run[i].call, run[i].fault);
    CreatedReply(StateAt(run, i), run[i].call, run[i].fault);
    ClaimPersists(run, i + 1, j, key);
    ReachableStructural(run, j);
    StepsOfCreation(run, i, j, claim.plan.operationId);
    if run[j].call.ClaimParent? { WellFormedIff(run[j].call.parent); }
    WindowAnswer(s, run[j].call, run[j].fault);
  }

  lemma WindowAnswer(s: State, c: Call, fault: bool)
    requires Keyed(s) && Claimant(c).Some? && (c.ClaimParent? ==> ParentClaimProblem(c.parent).None?)
    requires LiveClaim(s, ClaimKeys.ClaimKey(Claimant(c).value.0, Claimant(c).value.1), CallTime(c).value)
    ensures var entry := s.claims[ClaimKeys.ClaimKey(Claimant(c).value.0, Claimant(c).value.1)];
            Decide(s, c, fault).reply ==
              if ClaimedFingerprint(c) != entry.fingerprint then Failure(IdempotencyConflict)
              else if c.ReplayParent? && |StepsOf(s, entry.operationId)| != 1 then Failure(PersistenceFailed)
              else if fault then Failure(AuditPersistenceFailed)
              else Replayed(entry.operationId)
    ensures Next(s, c, fault).operations == s.operations
  {
    hide ClaimKeys.ClaimKey, ParentClaimProblem, StepsOf;
  }

  /** Calls of other claimants leave a claimant's entry alone. */
  lemma OtherClaimantsSpare(s: State, c: Call, fault: bool, actor: Id, key: string)
    requires Claimant(c) != Some((actor, key))
    ensures var slot := ClaimKeys.ClaimKey(actor, key);
            var t := Next(s, c, fault);
            (slot in t.claims <==> slot in s.claims) && (slot in s.claims ==> t.claims[slot] == s.claims[slot])
  {
    hide Decide, ClaimKeys.ClaimKey;
    ClaimSlots(s, c, fault);
    var change := Decide(s, c, fault).effect.claim;
    if change.PutClaim? && change.key == ClaimKeys.ClaimKey(actor, key) {
      ClaimKeys.ClaimKeyInjective(actor, key, Claimant(c).value.0, Claimant(c).value.1);
    }
    if change.DropClaim? && change.dropped == ClaimKeys.ClaimKey(actor, key) {
      ClaimKeys.ClaimKeyInjective(actor, key, Claimant(c).value.0, Claimant(c).value.1);
    }
  }

  lemma ClaimSlots(s: State, c: Call, fault: bool)
    ensures var change := Decide(s, c, fault).effect.claim;
            && (change.PutClaim? ==> Claimant(c).Some? && change.key == ClaimKeys.ClaimKey(Claimant(c).value.0, Claimant(c).value.1))
            && (change.DropClaim? ==> Claimant(c).Some? && change.dropped == ClaimKeys.ClaimKey(Claimant(c).value.0, Claimant(c).value.1))
  {
    hide DecideAuthorizeOperation, ClaimKeys.ClaimKey;
    if c.AuthorizeOperation? { AuthorizationShape(s, c.dispatch, fault); }
  }

  lemma {:induction false} EntryKept(run: seq<Input>, i: nat, j: nat, actor: Id, key: string)
    requires i <= j <= |run| && forall m :: i <= m < j ==> Claimant(run[m].call) != Some((actor, key))
    requires ClaimKeys.ClaimKey(actor, key) in StateAt(run, i).claims
    ensures ClaimKeys.ClaimKey(actor, key) in StateAt(run, j).claims
    ensures StateAt(run, j).claims[ClaimKeys.ClaimKey(actor, key)] == StateAt(run, i).claims[ClaimKeys.ClaimKey(actor, key)]
    decreases j
  {
    hide StateAt, Next, ClaimKeys.ClaimKey;
    if i < j {
      NextState(run, j - 1);
      EntryKept(run, i, j - 1, actor, key);
      OtherClaimantsSpare(StateAt(run, j - 1), run[j - 1].call, run[j - 1].fault, actor, key);
    }
  }

  /** The window ends when the claim says: the next claim after it, with fresh ids, creates a new operation. */
  lemma WindowEnds(run: seq<Input>, i: nat, j: nat)
    requires GoodRun(run) && i < j < |run| && ReplyAt(run, i).Created? && ClaimOf(run[i].call).Some? && ClaimOf(run[j].call).Some?
    requires Claimant(run[j].call) == Claimant(run[i].call)
    requires forall m :: i < m < j ==> Claimant(run[m].call) != Claimant(run[i].call)
    requires ClaimOf(run[j].call).value.now >= ClaimOf(run[i].call).value.expiresAt
    requires ClaimOf(run[j].call).value.plan.operationId !in StateAt(run, j).operations
    requires run[j].call.ClaimParent? ==> WellFormed(run[j].call.parent) && run[j].call.parent.stepId !in StateAt(run, j).steps
    ensures ReplyAt(run, j) == if run[j].fault then Failure(AuditPersistenceFailed) else Created(ClaimOf(run[j].call).value.plan.operationId)
  {
    hide StateAt, Decide, ClaimKeys.ClaimKey, Next, WellFormed, Disciplined;
    NextState(run, i);
    var who := Claimant(run[i].call).value;
    CreationEntry(StateAt(run, i), run[i].call, run[i].fault);
    EntryKept(run, i + 1, j, who.0, who.1);
    if run[j].call.ClaimParent? { WellFormedIff(run[j].call.parent); }
    FreshClaimCreates(StateAt(run, j), run[j].call, run[j].fault);
  }

  lemma FreshClaimCreates(s: State, c: Call, fault: bool)
    requires ClaimOf(c).Some? && ClaimOf(c).value.plan.operationId !in s.operations
    requires !LiveClaim(s, ClaimKeys.ClaimKey(Claimant(c).value.0, Claimant(c).value.1), ClaimOf(c).value.now)
    requires c.ClaimParent? ==> ParentClaimProblem(c.parent).None? && c.parent.stepId !in s.steps
    ensures Decide(s, c, fault).reply == if fault then Failure(AuditPersistenceFailed) else Created(ClaimOf(c).value.plan.operationId)
  {
    hide ClaimKeys.ClaimKey, MakeEvent, ParentClaimProblem;
  }
}
