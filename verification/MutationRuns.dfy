/** Safety of the durable mutation protocol over whole runs of calls. */
module MutationRuns {
  import opened Basics
  import opened ActionStatuses
  import opened Aggregation
  import opened MutationModel
  import opened MutationInvariants
  import opened MutationCalls
  import ClaimKeys

  // ---------------------------------------------------------------- runs

  /** One call of a run; `fault` says that an audit write of this call fails. */
  datatype Input = Input(call: Call, fault: bool)

  ghost function StateAt(run: seq<Input>, n: nat): State
    requires n <= |run|
  {
    if n == 0 then EmptyState else Next(StateAt(run, n - 1), run[n - 1].call, run[n - 1].fault)
  }

  ghost function ReplyAt(run: seq<Input>, n: nat): Reply
    requires n < |run|
  {
    Decide(StateAt(run, n), run[n].call, run[n].fault).reply
  }

  ghost predicate GoodRun(run: seq<Input>) {
    forall n :: 0 <= n < |run| ==> Disciplined(StateAt(run, n), run[n].call)
  }

  lemma {:induction false} ReachableInv(run: seq<Input>, n: nat)
    requires GoodRun(run) && n <= |run|
    ensures Inv(StateAt(run, n))
  {
    hide Inv, Next, Disciplined;
    if n == 0 {
      InitialInv();
    } else {
      ReachableInv(run, n - 1);
      CallKeepsInv(StateAt(run, n - 1), run[n - 1].call, run[n - 1].fault);
    }
  }

  // ---------------------------------------------------------------- what no call undoes

  predicate OperationEvolves(before: Operation, after: Operation) {
    && after.plan == before.plan
    && (IsTerminal(before.verdict.status) ==> after == before)
  }

  predicate StepEvolves(before: Step, after: Step) {
    && after.parentId == before.parentId && after.origin == before.origin
    && (IsTerminal(before.verdict.status) ==> after == before)
    && (before.dispatch.Some? ==> after.dispatch == before.dispatch)
    && (before.verdict.effect != EffectNotStarted ==> after.verdict.effect != EffectNotStarted)
  }

  ghost predicate RowsEvolve(s: State, t: State) {
    && (forall id :: id in s.operations ==> id in t.operations && OperationEvolves(s.operations[id], t.operations[id]))
    && (forall id :: id in s.steps ==> id in t.steps && StepEvolves(s.steps[id], t.steps[id]))
  }

  /** Fences only rise, and while one stands still its lock can only stay or vanish. */
  ghost predicate LocksEvolve(s: State, t: State) {
    forall key ::
      && Fence(s, key) <= Fence(t, key)
      && (Fence(s, key) == Fence(t, key) && key in t.locks ==>
            key in s.locks && s.locks[key].owner == t.locks[key].owner)
  }

  ghost predicate LogsEvolve(s: State, t: State) {
    forall id :: AuditsOf(s, id) <= AuditsOf(t, id)
  }

  ghost predicate Evolves(s: State, t: State) {
    RowsEvolve(s, t) && LocksEvolve(s, t) && LogsEvolve(s, t)
  }

  lemma LawfulRowsEvolve(s: State, e: Effect)
    requires LawfulRows(s, e)
    ensures RowsEvolve(s, Commit(s, e))
  {
  }

  lemma LawfulLocksEvolve(s: State, e: Effect)
    requires LawfulLock(s, e)
    ensures LocksEvolve(s, Commit(s, e))
  {
  }

  lemma LogsOnlyGrow(s: State, e: Effect)
    ensures LogsEvolve(s, Commit(s, e))
  {
    forall id ensures AuditsOf(s, id) <= AuditsOf(Commit(s, e), id) {
      LogsGrow(s, e, id);
    }
  }

  lemma CallEvolves(s: State, c: Call, fault: bool)
    requires Inv(s) && Disciplined(s, c)
    ensures Evolves(s, Next(s, c, fault))
  {
    hide Inv, Decide, LawfulRows, LawfulLock, LawfulLog, Commit, RowsEvolve, LocksEvolve, LogsEvolve, Disciplined;
    CallLawful(s, c, fault);
    var e := Decide(s, c, fault).effect;
    LawfulRowsEvolve(s, e);
    LawfulLocksEvolve(s, e);
    LogsOnlyGrow(s, e);
  }

  lemma EvolvesTransitive(s: State, t: State, u: State)
    requires Evolves(s, t) && Evolves(t, u)
    ensures Evolves(s, u)
  {
  }

  lemma {:induction false} RunEvolves(run: seq<Input>, i: nat, j: nat)
    requires GoodRun(run) && i <= j <= |run|
    ensures Evolves(StateAt(run, i), StateAt(run, j))
  {
    hide Inv, Next, Disciplined, Evolves;
    if i == j {
      SameEvolves(StateAt(run, i));
    } else {
      RunEvolves(run, i, j - 1);
      ReachableInv(run, j - 1);
      CallEvolves(StateAt(run, j - 1), run[j - 1].call, run[j - 1].fault);
      EvolvesTransitive(StateAt(run, i), StateAt(run, j - 1), StateAt(run, j));
    }
  }

  lemma SameEvolves(s: State)
    ensures Evolves(s, s)
  {
  }

  // ---------------------------------------------------------------- quarantine

  ghost predicate IsIndeterminate(s: State, id: Id) {
    id in s.operations && s.operations[id].verdict.status == Indeterminate
  }

  /** Two indeterminate operations never share a key. */
  lemma OneIndeterminatePerKey(run: seq<Input>, n: nat, a: Id, b: Id)
    requires GoodRun(run) && n <= |run|
    requires IsIndeterminate(StateAt(run, n), a) && IsIndeterminate(StateAt(run, n), b)
    requires StateAt(run, n).operations[a].plan.operationKey == StateAt(run, n).operations[b].plan.operationKey
    ensures a == b
  {
    hide StateAt;
    ReachableInv(run, n);
  }

  /**
   * From the moment an operation becomes indeterminate it stays so, and holds the
   * lock of its key in every later state of the run.
   */
  lemma QuarantineHolds(run: seq<Input>, i: nat, j: nat, id: Id)
    requires GoodRun(run) && i <= j <= |run| && IsIndeterminate(StateAt(run, i), id)
    ensures IsIndeterminate(StateAt(run, j), id)
    ensures HoldsLock(StateAt(run, j), StateAt(run, j).operations[id])
    ensures StateAt(run, j).operations[id] == StateAt(run, i).operations[id]
  {
    hide StateAt;
    RunEvolves(run, i, j);
    ReachableInv(run, j);
  }

  /** The key a call asks a lease or a dispatch for. */
  function RequestedKey(c: Call): Option<Id> {
    match c
    case AcquireLease(key, _, _, _) => Some(key)
    case AcquireRecoveryLease(key, _, _, _) => Some(key)
    case AuthorizeStep(i) => Some(i.operationKey)
    case AuthorizeOperation(i) => Some(i.operationKey)
    case _ => None
  }

  lemma QuarantineRefuses(s: State, c: Call, fault: bool, id: Id)
    requires Inv(s) && IsIndeterminate(s, id)
    requires RequestedKey(c) == Some(s.operations[id].plan.operationKey)
    ensures !Decide(s, c, fault).reply.Granted? && !Decide(s, c, fault).reply.Done?
    ensures Decide(s, c, fault).effect == NoEffect
  {
    hide DecideAuthorizeStep, DecideAuthorizeOperation, LocksCurrent, LogsNumbered, DispatchesLogged, PathsLegal;
    assert HoldsLock(s, s.operations[id]);
    match c
    case AuthorizeStep(i) => QuarantineRefusesStep(s, i, fault, id);
    case AuthorizeOperation(i) => QuarantineRefusesOperation(s, i, fault, id);
    case _ =>
  }

  lemma QuarantineRefusesOperation(s: State, i: DispatchInput, fault: bool, id: Id)
    requires Keyed(s) && ParentsAgree(s) && IsIndeterminate(s, id) && HoldsLock(s, s.operations[id])
    requires i.operationKey == s.operations[id].plan.operationKey
    ensures DecideAuthorizeOperation(s, i, fault).reply.Failure?
    ensures DecideAuthorizeOperation(s, i, fault).effect == NoEffect
  {
    hide DecideAuthorizeStep;
    if i.serviceId.Some? {
      forall child | child in StepsOf(s, i.operationId)
        ensures DecideAuthorizeStep(s, ChildDispatch(i, s.steps[child]), fault).reply.Failure?
        ensures DecideAuthorizeStep(s, ChildDispatch(i, s.steps[child]), fault).effect == NoEffect
      {
        QuarantineRefusesStep(s, ChildDispatch(i, s.steps[child]), fault, id);
      }
    }
  }

  lemma QuarantineRefusesStep(s: State, i: StepDispatchInput, fault: bool, id: Id)
    requires Keyed(s) && ParentsAgree(s) && IsIndeterminate(s, id) && HoldsLock(s, s.operations[id])
    requires i.operationKey == s.operations[id].plan.operationKey
    ensures DecideAuthorizeStep(s, i, fault).reply.Failure?
    ensures DecideAuthorizeStep(s, i, fault).effect == NoEffect
  {
    if HasStep(s, i.operationId, i.stepId) && i.operationId == id {
      assert s.operations[id].verdict == SoleVerdict(s.steps[i.stepId].verdict);
    }
  }

  /** Under a quarantined key no lease is granted and no dispatch authorised, ever after. */
  lemma QuarantineIsForever(run: seq<Input>, i: nat, j: nat, id: Id)
    requires GoodRun(run) && i <= j < |run| && IsIndeterminate(StateAt(run, i), id)
    requires RequestedKey(run[j].call) == Some(StateAt(run, i).operations[id].plan.operationKey)
    ensures !ReplyAt(run, j).Granted? && !ReplyAt(run, j).Done?
    ensures StateAt(run, j + 1) == StateAt(run, j)
  {
    hide Inv, Decide;
    QuarantineHolds(run, i, j, id);
    ReachableInv(run, j);
    QuarantineRefuses(StateAt(run, j), run[j].call, run[j].fault, id);
  }

  // ---------------------------------------------------------------- fencing

  /** The lease a call presents as proof of ownership. */
  function Presented(c: Call): Option<(Id, nat)> {
    match c
    case AuthorizeStep(i) => Some((i.operationKey, i.token))
    case TransitionStep(i) => Some((i.ownership.operationKey, i.ownership.token))
    case FinalizeStep(i) => Some((i.ownership.operationKey, i.ownership.token))
    case RecoverStep(_, _, lease, _) => Some((lease.operationKey, lease.token))
    case AuthorizeOperation(i) => Some((i.operationKey, i.token))
    case TransitionOperation(i) =>
      if i.ownership.Some? then Some((i.ownership.value.operationKey, i.ownership.value.token)) else None
    case RenewLease(lease, _, _) => Some((lease.operationKey, lease.token))
    case ReleaseLease(lease) => Some((lease.operationKey, lease.token))
    case _ => None
  }

  lemma StaleTokenRefused(s: State, c: Call, fault: bool, key: Id, token: nat)
    requires LocksCurrent(s) && Presented(c) == Some((key, token)) && token != Fence(s, key)
    ensures Decide(s, c, fault).effect == NoEffect
  {
    hide Decide, LocksCurrent;
    assert key in s.locks ==> s.locks[key].token != token by { StaleLock(s, key, token); }
    match c {
      case AuthorizeOperation(i) => StaleAuthorization(s, i, fault);
      case AuthorizeStep(_) => StaleStepCall(s, c, fault, key, token);
      case TransitionStep(_) => StaleStepCall(s, c, fault, key, token);
      case FinalizeStep(_) => StaleStepCall(s, c, fault, key, token);
      case RecoverStep(_, _, _, _) => StaleStepCall(s, c, fault, key, token);
      case _ => StaleLeaseCall(s, c, fault, key, token);
    }
  }

  lemma StaleLock(s: State, key: Id, token: nat)
    requires LocksCurrent(s) && token != Fence(s, key)
    ensures key in s.locks ==> s.locks[key].token != token
  {
  }

  lemma StaleStepCall(s: State, c: Call, fault: bool, key: Id, token: nat)
    requires Presented(c) == Some((key, token)) && (key in s.locks ==> s.locks[key].token != token)
    requires c.AuthorizeStep? || c.TransitionStep? || c.FinalizeStep? || c.RecoverStep?
    ensures Decide(s, c, fault).effect == NoEffect
  {
    hide ChildThenParent, NextEvent;
  }

  lemma StaleLeaseCall(s: State, c: Call, fault: bool, key: Id, token: nat)
    requires Presented(c) == Some((key, token)) && (key in s.locks ==> s.locks[key].token != token)
    requires c.TransitionOperation? || c.RenewLease? || c.ReleaseLease?
    ensures Decide(s, c, fault).effect == NoEffect
  {
    hide NextEvent;
  }

  lemma StaleAuthorization(s: State, i: DispatchInput, fault: bool)
    requires i.operationKey in s.locks ==> s.locks[i.operationKey].token != i.token
    ensures DecideAuthorizeOperation(s, i, fault).effect == NoEffect
    ensures Decide(s, AuthorizeOperation(i), fault).effect == NoEffect
  {
    if i.operationId in s.operations && |StepsOf(s, i.operationId)| == 1 && i.serviceId.Some? {
      forall child | child in StepsOf(s, i.operationId)
        ensures DecideAuthorizeStep(s, ChildDispatch(i, s.steps[child]), fault).effect == NoEffect
      {
      }
    }
  }

  /** Once a newer token has been issued for a key, no call presenting an older one changes anything. */
  lemma FencedOff(run: seq<Input>, i: nat, j: nat, key: Id, token: nat)
    requires GoodRun(run) && i <= j < |run|
    requires token < Fence(StateAt(run, i), key) && Presented(run[j].call) == Some((key, token))
    ensures StateAt(run, j + 1) == StateAt(run, j)
  {
    hide Decide, RowsEvolve, LogsEvolve;
    RunEvolves(run, i, j);
    ReachableInv(run, j);
    StaleTokenRefused(StateAt(run, j), run[j].call, run[j].fault, key, token);
  }

  /** In every reachable state a lock carries the newest token ever issued for its key. */
  lemma LockTokenIsNewest(run: seq<Input>, i: nat, j: nat, key: Id)
    requires GoodRun(run) && i <= j <= |run| && key in StateAt(run, j).locks
    ensures Fence(StateAt(run, i), key) <= StateAt(run, j).locks[key].token == Fence(StateAt(run, j), key)
  {
    hide StateAt, RowsEvolve, LogsEvolve;
    RunEvolves(run, i, j);
    ReachableInv(run, j);
  }

  // ---------------------------------------------------------------- one-shot dispatch

  /** Call `n` of the run authorises operation `id` to dispatch under `key` with `token`. */
  ghost predicate DispatchAt(run: seq<Input>, n: nat, id: Id, key: Id, token: nat)
    requires n < |run|
  {
    && ReplyAt(run, n) == Done
    && match run[n].call
       case AuthorizeStep(i) => i.operationId == id && i.operationKey == key && i.token == token
       case AuthorizeOperation(i) => i.operationId == id && i.operationKey == key && i.token == token
       case _ => false
  }

  /** What an authorised dispatch relies on and leaves behind. */
  ghost predicate DispatchFacts(s: State, t: State, id: Id, key: Id, token: nat) {
    && key in s.locks && s.locks[key].owner == id && s.locks[key].token == token
    && key in t.locks && t.locks[key] == s.locks[key]
    && !HasDispatchEvent(AuditsOf(s, id))
    && HasDispatchEvent(AuditsOf(t, id))
  }

  lemma StepDispatchFacts(s: State, i: StepDispatchInput)
    requires Inv(s) && DecideAuthorizeStep(s, i, false).reply == Done
    ensures DispatchFacts(s, Commit(s, DecideAuthorizeStep(s, i, false).effect), i.operationId, i.operationKey, i.token)
  {
    var e := DecideAuthorizeStep(s, i, false).effect;
    LogsGrow(s, e, i.operationId);
    assert e.events[0].eventType == DispatchEvent;
    HasDispatchConcat(AuditsOf(s, i.operationId), e.events);
  }

  lemma OperationDispatchFacts(s: State, i: DispatchInput)
    requires Inv(s) && DecideAuthorizeOperation(s, i, false).reply == Done
    ensures DispatchFacts(s, Commit(s, DecideAuthorizeOperation(s, i, false).effect), i.operationId, i.operationKey, i.token)
  {
    if StepsOf(s, i.operationId) != {} {
      forall child | child in StepsOf(s, i.operationId) && DecideAuthorizeStep(s, ChildDispatch(i, s.steps[child]), false).reply == Done
        ensures DispatchFacts(s, Commit(s, DecideAuthorizeStep(s, ChildDispatch(i, s.steps[child]), false).effect),
                              i.operationId, i.operationKey, i.token)
      {
        StepDispatchFacts(s, ChildDispatch(i, s.steps[child]));
      }
    } else {
      var e := DecideAuthorizeOperation(s, i, false).effect;
      LogsGrow(s, e, i.operationId);
      assert e.events[0].eventType == DispatchEvent;
      HasDispatchConcat(AuditsOf(s, i.operationId), e.events);
    }
  }

  lemma DispatchAtFacts(run: seq<Input>, n: nat, id: Id, key: Id, token: nat)
    requires GoodRun(run) && n < |run| && DispatchAt(run, n, id, key, token)
    ensures DispatchFacts(StateAt(run, n), StateAt(run, n + 1), id, key, token)
    ensures token == Fence(StateAt(run, n), key) == Fence(StateAt(run, n + 1), key)
  {
    ReachableInv(run, n);
    ReachableInv(run, n + 1);
    var s := StateAt(run, n);
    assert !run[n].fault by { FaultyDispatchFails(s, run[n].call); }
    match run[n].call
    case AuthorizeStep(i) => StepDispatchFacts(s, i);
    case AuthorizeOperation(i) => OperationDispatchFacts(s, i);
  }

  lemma FaultyDispatchFails(s: State, c: Call)
    requires c.AuthorizeStep? || c.AuthorizeOperation?
    ensures Decide(s, c, true).reply != Done
  {
  }

  /** No operation is authorised to dispatch twice. */
  lemma DispatchIsOneShot(run: seq<Input>, i: nat, j: nat, id: Id, keyI: Id, keyJ: Id, tokenI: nat, tokenJ: nat)
    requires GoodRun(run) && i < j < |run|
    requires DispatchAt(run, i, id, keyI, tokenI)
    ensures !DispatchAt(run, j, id, keyJ, tokenJ)
  {
    hide DispatchAt, StateAt, RowsEvolve, LocksEvolve;
    DispatchAtFacts(run, i, id, keyI, tokenI);
    RunEvolves(run, i + 1, j);
    DispatchEventStays(AuditsOf(StateAt(run, i + 1), id), AuditsOf(StateAt(run, j), id));
    if DispatchAt(run, j, id, keyJ, tokenJ) {
      DispatchAtFacts(run, j, id, keyJ, tokenJ);
    }
  }

  lemma DispatchEventStays(a: seq<AuditEvent>, b: seq<AuditEvent>)
    requires a <= b && HasDispatchEvent(a)
    ensures HasDispatchEvent(b)
  {
    HasDispatchConcat(a, b[|a|..]);
    assert b == a + b[|a|..];
  }

  /** Successive dispatches under one key carry strictly increasing tokens. */
  lemma DispatchTokensIncrease(run: seq<Input>, i: nat, j: nat, idI: Id, idJ: Id, key: Id, tokenI: nat, tokenJ: nat)
    requires GoodRun(run) && i < j < |run|
    requires DispatchAt(run, i, idI, key, tokenI) && DispatchAt(run, j, idJ, key, tokenJ)
    ensures tokenI < tokenJ
  {
    hide DispatchAt, StateAt, RowsEvolve, LogsEvolve;
    DispatchAtFacts(run, i, idI, key, tokenI);
    DispatchAtFacts(run, j, idJ, key, tokenJ);
    RunEvolves(run, i + 1, j);
    if tokenI == tokenJ {
      assert idI == idJ;
      DispatchIsOneShot(run, i, j, idI, key, key, tokenI, tokenJ);
    }
  }

  /** A step is marked dispatched exactly when its log holds a dispatch event about it, and it holds at most one. */
  lemma DispatchMarkMatchesLog(run: seq<Input>, n: nat, stepId: Id)
    requires GoodRun(run) && n <= |run| && stepId in StateAt(run, n).steps
    ensures var s := StateAt(run, n);
            var log := AuditsOf(s, s.steps[stepId].parentId);
            && (s.steps[stepId].dispatch.Some? <==>
                  exists k :: 0 <= k < |log| && log[k].eventType == DispatchEvent && log[k].childStepId == Some(stepId))
            && OneDispatch(log)
  {
    hide StateAt;
    ReachableInv(run, n);
    var s := StateAt(run, n);
    var parent := s.steps[stepId].parentId;
    var log := AuditsOf(s, parent);
    assert stepId in StepsOf(s, parent);
    forall k | 0 <= k < |log| && log[k].eventType == DispatchEvent
      ensures log[k].childStepId == Some(stepId)
    {
      assert parent in s.audits && EventFits(s, parent, k, s.audits[parent][k]);
    }
  }
}
