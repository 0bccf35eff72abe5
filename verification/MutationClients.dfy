/**
 * What a client of the repository may rely on while other clients use it too:
 * calls made for other operations leave its operation, its step and its
 * unexpired lease alone.
 */
module MutationClients {
  import opened Basics
  import opened ActionStatuses
  import opened Aggregation
  import opened MutationModel
  import opened MutationInvariants
  import opened MutationCalls
  import opened MutationRuns
  import opened Repository

  /** The operation a call acts for; claims act for an operation they create or find. */
  function ActsFor(c: Call): Option<Id> {
    match c
    case Claim(_) => None
    case ClaimParent(_) => None
    case ReplayParent(_) => None
    case RejectBeforeOwnership(op, _, _, _) => Some(op)
    case AuthorizeStep(i) => Some(i.operationId)
    case TransitionStep(i) => Some(i.operationId)
    case FinalizeStep(i) => Some(i.operationId)
    case RecoverStep(op, _, _, _) => Some(op)
    case AuthorizeOperation(i) => Some(i.operationId)
    case TransitionOperation(i) => Some(i.operationId)
    case AcquireLease(_, op, _, _) => Some(op)
    case AcquireRecoveryLease(_, op, _, _) => Some(op)
    case RenewLease(lease, _, _) => Some(lease.owner)
    case ReleaseLease(lease) => Some(lease.owner)
  }

  /** The operation holds exactly this lease. */
  ghost predicate Holds(s: State, id: Id, lease: Lease) {
    lease.owner == id && lease.operationKey in s.locks && s.locks[lease.operationKey] == lease
  }

  ghost predicate HoldsNothing(s: State, id: Id) {
    forall k :: k in s.locks ==> s.locks[k].owner != id
  }

  /**
   * A call for the operation itself by someone who does not hold its live lease: asking for a
   * lease, recovering before the lease expires, rejecting it as unowned, or presenting another lease.
   */
  predicate Powerless(c: Call, lease: Lease) {
    match c
    case AcquireLease(_, _, _, _) => true
    case AcquireRecoveryLease(_, _, now, _) => now < lease.expiresAt
    case RejectBeforeOwnership(_, _, _, _) => true
    case _ => Presented(c).Some? && Presented(c) != Some((lease.operationKey, lease.token))
  }

  /** The call asks for a recovery lease on the held key once the held lease has expired. */
  predicate TakesOver(c: Call, held: Option<Lease>) {
    held.Some? && c.AcquireRecoveryLease? && c.reacquireKey == held.value.operationKey && c.reacquireNow >= held.value.expiresAt
  }

  /**
   * A call of another client. It acts for another operation, and does not take over the held key; or
   * it acts for this one while `held` is a live lease, without holding it.
   */
  predicate Foreign(c: Call, id: Id, held: Option<Lease>) {
    if ActsFor(c) != Some(id) then !TakesOver(c, held) else held.Some? && Powerless(c, held.value)
  }

  /** Operation `id` is unfinished, and `held` is the only lock it has. */
  ghost predicate Guarded(s: State, id: Id, held: Option<Lease>) {
    && id in s.operations && !IsTerminal(s.operations[id].verdict.status)
    && match held
       case None => HoldsNothing(s, id)
       case Some(lease) =>
         && Holds(s, id, lease) && s.operations[id].plan.operationKey == lease.operationKey
         && forall k :: k in s.locks && s.locks[k].owner == id ==> k == lease.operationKey
  }

  /** Operation `id`, its steps and its locks are the same in both states. */
  ghost predicate Undisturbed(s: State, t: State, id: Id) {
    && id in s.operations && id in t.operations && t.operations[id] == s.operations[id]
    && (forall k :: k in s.steps && s.steps[k].parentId == id ==> k in t.steps && t.steps[k] == s.steps[k])
    && (forall k :: k in t.steps && t.steps[k].parentId == id ==> k in s.steps && t.steps[k] == s.steps[k])
    && (forall k :: k in s.locks && s.locks[k].owner == id ==> k in t.locks && t.locks[k] == s.locks[k])
    && (forall k :: k in t.locks && t.locks[k].owner == id ==> k in s.locks && t.locks[k] == s.locks[k])
  }

  /** The lock change is about a key that `id` does not hold, and does not give it to `id`. */
  ghost predicate LockSpares(s: State, change: LockChange, id: Id) {
    match change
    case KeepLocks => true
    case GrantLock(lease) => lease.owner != id && (lease.operationKey in s.locks ==> s.locks[lease.operationKey].owner != id)
    case RenewLock(lease) => lease.owner != id && (lease.operationKey in s.locks ==> s.locks[lease.operationKey].owner != id)
    case DropLock(key) => key in s.locks ==> s.locks[key].owner != id
  }

  ghost predicate Spares(s: State, e: Effect, id: Id) {
    && (e.operation.Some? ==> e.operation.value.plan.operationId != id)
    && (e.step.Some? ==> e.step.value.parentId != id && (e.step.value.id in s.steps ==> s.steps[e.step.value.id].parentId != id))
    && LockSpares(s, e.lock, id)
  }

  lemma SparedUndisturbed(s: State, e: Effect, id: Id)
    requires id in s.operations && Spares(s, e, id)
    ensures Undisturbed(s, Commit(s, e), id)
  {
  }

  lemma ClaimsSpare(s: State, c: Call, fault: bool, id: Id)
    requires id in s.operations && (c.Claim? || c.ClaimParent? || c.ReplayParent?)
    ensures Spares(s, Decide(s, c, fault).effect, id)
  {
  }

  lemma StepCallsSpare(s: State, c: Call, fault: bool, id: Id)
    requires Keyed(s) && ActsFor(c) != Some(id)
    requires c.RejectBeforeOwnership? || c.AuthorizeStep? || c.TransitionStep?
    ensures Spares(s, Decide(s, c, fault).effect, id)
  {
    hide ChildThenParent, NextEvent;
  }

  lemma FinalizationSpares(s: State, i: StepFinalizationInput, fault: bool, id: Id)
    requires Keyed(s) && i.operationId != id
    ensures Spares(s, DecideFinalizeStep(s, i, fault).effect, id)
  {
    hide ChildThenParent;
  }

  lemma RecoverySpares(s: State, operationId: Id, stepId: Id, lease: Lease, now: int, fault: bool, id: Id)
    requires Keyed(s) && operationId != id
    ensures Spares(s, DecideRecoverStep(s, operationId, stepId, lease, now, fault).effect, id)
  {
    hide ChildThenParent;
  }

  lemma OperationCallsSpare(s: State, c: Call, fault: bool, id: Id)
    requires Keyed(s) && ActsFor(c) != Some(id) && (c.AuthorizeOperation? || c.TransitionOperation?)
    ensures Spares(s, Decide(s, c, fault).effect, id)
  {
    hide NextEvent;
    if c.AuthorizeOperation? && StepsOf(s, c.dispatch.operationId) != {} && |StepsOf(s, c.dispatch.operationId)| == 1
       && c.dispatch.serviceId.Some? {
      forall st | st in StepsOf(s, c.dispatch.operationId)
        ensures Spares(s, DecideAuthorizeStep(s, ChildDispatch(c.dispatch, s.steps[st]), fault).effect, id)
      {
      }
    }
  }

  lemma AcquisitionsSpare(s: State, c: Call, fault: bool, id: Id, held: Option<Lease>)
    requires Guarded(s, id, held) && ActsFor(c) != Some(id) && (c.AcquireLease? || c.AcquireRecoveryLease?) && !TakesOver(c, held)
    ensures Spares(s, Decide(s, c, fault).effect, id)
  {
  }

  lemma LeaseUsesSpare(s: State, c: Call, fault: bool, id: Id)
    requires Keyed(s) && ActsFor(c) != Some(id) && (c.RenewLease? || c.ReleaseLease?)
    ensures Spares(s, Decide(s, c, fault).effect, id)
  {
  }

  /** A call for another operation. */
  lemma OtherCallSpares(s: State, c: Call, fault: bool, id: Id, held: Option<Lease>)
    requires Keyed(s) && Guarded(s, id, held) && ActsFor(c) != Some(id) && Foreign(c, id, held)
    ensures Spares(s, Decide(s, c, fault).effect, id)
  {
    hide Spares, Keyed, DecideFinalizeStep, DecideRecoverStep;
    match c {
      case FinalizeStep(i) => FinalizationSpares(s, i, fault, id);
      case RecoverStep(op, st, lease, now) => RecoverySpares(s, op, st, lease, now, fault, id);
      case Claim(_) => hide Decide; ClaimsSpare(s, c, fault, id);
      case ClaimParent(_) => hide Decide; ClaimsSpare(s, c, fault, id);
      case ReplayParent(_) => hide Decide; ClaimsSpare(s, c, fault, id);
      case AuthorizeOperation(_) => hide Decide; OperationCallsSpare(s, c, fault, id);
      case TransitionOperation(_) => hide Decide; OperationCallsSpare(s, c, fault, id);
      case AcquireLease(_, _, _, _) => hide Decide; AcquisitionsSpare(s, c, fault, id, held);
      case AcquireRecoveryLease(_, _, _, _) => hide Decide; AcquisitionsSpare(s, c, fault, id, held);
      case RenewLease(_, _, _) => hide Decide; LeaseUsesSpare(s, c, fault, id);
      case ReleaseLease(_) => hide Decide; LeaseUsesSpare(s, c, fault, id);
      case _ => hide Decide; StepCallsSpare(s, c, fault, id);
    }
  }

  // ---------------------------------------------------------------- calls for the operation itself

  /** The call does not present the lock that operation `id` holds. */
  ghost predicate PresentsNoLock(s: State, c: Call, id: Id) {
    && Presented(c).Some? && ActsFor(c) == Some(id)
    && (Presented(c).value.0 in s.locks ==>
          s.locks[Presented(c).value.0].owner != id || s.locks[Presented(c).value.0].token != Presented(c).value.1)
  }

  lemma StepCallRefused(s: State, c: Call, fault: bool, id: Id)
    requires Keyed(s) && PresentsNoLock(s, c, id)
    requires c.AuthorizeStep? || c.TransitionStep? || c.FinalizeStep? || c.RecoverStep?
    ensures Decide(s, c, fault).effect == NoEffect
  {
    hide ChildThenParent, NextEvent;
  }

  lemma LeaseCallRefused(s: State, c: Call, fault: bool, id: Id)
    requires PresentsNoLock(s, c, id) && (c.TransitionOperation? || c.RenewLease? || c.ReleaseLease?)
    ensures Decide(s, c, fault).effect == NoEffect
  {
    hide NextEvent;
  }

  lemma AuthorizationRefused(s: State, i: DispatchInput, fault: bool)
    requires Keyed(s) && PresentsNoLock(s, AuthorizeOperation(i), i.operationId)
    ensures Decide(s, AuthorizeOperation(i), fault).effect == NoEffect
  {
    if i.operationId in s.operations && |StepsOf(s, i.operationId)| == 1 && i.serviceId.Some? {
      forall child | child in StepsOf(s, i.operationId)
        ensures DecideAuthorizeStep(s, ChildDispatch(i, s.steps[child]), fault).effect == NoEffect
      {
      }
    }
  }

  lemma UnleasedCallRefused(s: State, c: Call, fault: bool, id: Id, lease: Lease)
    requires Guarded(s, id, Some(lease)) && ActsFor(c) == Some(id) && Powerless(c, lease) && Presented(c).None?
    ensures Decide(s, c, fault).effect == NoEffect
  {
  }

  lemma OtherLeaseIsNoLock(s: State, c: Call, id: Id, lease: Lease)
    requires LocksCurrent(s) && Guarded(s, id, Some(lease)) && ActsFor(c) == Some(id)
    requires Presented(c).Some? && Presented(c) != Some((lease.operationKey, lease.token))
    ensures PresentsNoLock(s, c, id)
  {
  }

  /** While the lease is live, nobody who does not hold it changes anything in the operation's name. */
  lemma PowerlessCall(s: State, c: Call, fault: bool, id: Id, lease: Lease)
    requires Keyed(s) && LocksCurrent(s) && Guarded(s, id, Some(lease))
    requires ActsFor(c) == Some(id) && Powerless(c, lease)
    ensures Decide(s, c, fault).effect == NoEffect && Next(s, c, fault) == s
  {
    CommitNothing(s);
    hide Decide, Keyed, LocksCurrent, Guarded, PresentsNoLock, Commit;
    if Presented(c).None? {
      UnleasedCallRefused(s, c, fault, id, lease);
    } else {
      OtherLeaseIsNoLock(s, c, id, lease);
      match c {
        case AuthorizeOperation(i) => AuthorizationRefused(s, i, fault);
        case AuthorizeStep(_) => StepCallRefused(s, c, fault, id);
        case TransitionStep(_) => StepCallRefused(s, c, fault, id);
        case FinalizeStep(_) => StepCallRefused(s, c, fault, id);
        case RecoverStep(_, _, _, _) => StepCallRefused(s, c, fault, id);
        case _ => LeaseCallRefused(s, c, fault, id);
      }
    }
  }

  /** One call of another client leaves a guarded operation alone. */
  lemma ForeignCall(s: State, c: Call, fault: bool, id: Id, held: Option<Lease>)
    requires Inv(s) && Guarded(s, id, held) && Foreign(c, id, held) && Disciplined(s, c)
    ensures Inv(Next(s, c, fault)) && Undisturbed(s, Next(s, c, fault), id) && Guarded(Next(s, c, fault), id, held)
  {
    hide Decide, Spares, Commit, Keyed, OneChild, LocksCurrent, Quarantined, ParentsAgree, DispatchesConsistent, LogsNumbered,
         DispatchesLogged, PathsLegal, Powerless;
    CallKeepsInv(s, c, fault);
    if ActsFor(c) == Some(id) {
      PowerlessCall(s, c, fault, id, held.value);
    } else {
      OtherCallSpares(s, c, fault, id, held);
      SparedUndisturbed(s, Decide(s, c, fault).effect, id);
    }
  }

  /** What is left out of `Foreign` is exactly what would take the lock: a recovery lease is refused while the held one is live. */
  lemma TakenOverIff(s: State, c: Call, fault: bool, id: Id, lease: Lease)
    requires Inv(s) && Guarded(s, id, Some(lease)) && c.AcquireRecoveryLease? && c.reacquireKey == lease.operationKey
    requires c.reacquireNow < c.reacquireExpires && c.reacquireOperation in s.operations
    requires s.operations[c.reacquireOperation].plan.operationKey == lease.operationKey
    requires !IsTerminal(s.operations[c.reacquireOperation].verdict.status)
    ensures Holds(Next(s, c, fault), id, lease) <==> !TakesOver(c, Some(lease))
  {
    hide OneChild, Quarantined, ParentsAgree, DispatchesConsistent, LogsNumbered, DispatchesLogged, PathsLegal;
    CommitNothing(s);
  }

  // ---------------------------------------------------------------- serving calls

  /** One method per call, so every sequence of calls on the repository is a run of the model. */
  method Serve(repo: MutationRepository, c: Call) returns (reply: Reply)
    requires repo.Valid()
    modifies repo
    ensures repo.Committed(old(repo.View()), Decide(old(repo.View()), c, old(repo.failNextAudit)), reply)
  {
    hide Commit, DecideClaim, DecideClaimParent, DecideReplayParent, DecideReject, DecideAuthorizeStep, DecideTransitionStep,
         DecideFinalizeStep, DecideRecoverStep, DecideAuthorizeOperation, DecideTransition, DecideAcquire,
         DecideAcquireRecovery, DecideRenew, DecideRelease, Structural;
    match c
    case Claim(i) => reply := repo.Claim(i);
    case ClaimParent(i) => reply := repo.ClaimParentWithStep(i, false);
    case ReplayParent(i) => reply := repo.ReplayParentClaim(i);
    case RejectBeforeOwnership(op, st, now, reason) => reply := repo.RejectBeforeOwnership(op, st, now, reason, false);
    case AuthorizeStep(i) => reply := repo.AuthorizeStepDispatch(i);
    case TransitionStep(i) => reply := repo.TransitionStepWithAudit(i);
    case FinalizeStep(i) => reply := repo.FinalizeStepAndParent(i, false);
    case RecoverStep(op, st, lease, now) => reply := repo.RecoverStepAndParent(op, st, lease, now, false);
    case AuthorizeOperation(i) => reply := repo.AuthorizeDispatch(i);
    case TransitionOperation(i) => reply := repo.TransitionWithAudit(i);
    case AcquireLease(key, op, now, expires) => reply := repo.AcquireLease(key, op, now, expires);
    case AcquireRecoveryLease(key, op, now, expires) => reply := repo.AcquireRecoveryLease(key, op, now, expires);
    case RenewLease(lease, now, expires) => reply := repo.RenewLease(lease, now, expires);
    case ReleaseLease(lease) => reply := repo.ReleaseLease(lease);
  }

  /** A call of some client, and whether its audit writes fail. */
  datatype Request = Request(call: Call, failAudit: bool)

  /** The request is served: it is another client's, and disciplined. */
  ghost predicate Admitted(s: State, request: Request, id: Id, held: Option<Lease>) {
    Foreign(request.call, id, held) && Disciplined(s, request.call)
  }

  ghost function ServedOne(s: State, request: Request, id: Id, held: Option<Lease>): State {
    if Admitted(s, request, id, held) then Next(s, request.call, request.failAudit) else s
  }

  /** What the given requests leave, those that are admitted in their turn. */
  ghost function Served(s: State, requests: seq<Request>, id: Id, held: Option<Lease>): State
    decreases |requests|
  {
    if requests == [] then s
    else Served(ServedOne(s, requests[0], id, held), requests[1..], id, held)
  }

  /** Serves a request of another client. */
  method ServeOther(repo: MutationRepository, request: Request, id: Id, held: Option<Lease>)
    requires repo.Valid() && Inv(repo.View()) && Guarded(repo.View(), id, held)
    modifies repo
    ensures repo.Valid() && Inv(repo.View()) && Guarded(repo.View(), id, held) && Undisturbed(old(repo.View()), repo.View(), id)
    ensures repo.View() == ServedOne(old(repo.View()), request, id, held)
  {
    hide Inv, Structural, Commit, Decide, Foreign, Guarded;
    var c := request.call;
    var stepless := c.TransitionOperation? ==>
      forall st :: st in repo.steps ==> repo.steps[st].parentId != c.transition.operationId;
    SteplessIff(repo.View(), c);
    if Foreign(c, id, held) && stepless && !PassesDispatchEvent(c) {
      repo.failNextAudit := request.failAudit;
      ForeignCall(repo.View(), c, request.failAudit, id, held);
      var _ := Serve(repo, c);
    } else {
      SameUndisturbed(repo.View(), id, held);
    }
  }

  predicate PassesDispatchEvent(c: Call) {
    || (c.TransitionOperation? && c.transition.eventType == DispatchEvent)
    || (c.TransitionStep? && c.stepTransition.eventType == DispatchEvent)
  }

  lemma SteplessIff(s: State, c: Call)
    ensures Disciplined(s, c) <==>
              !PassesDispatchEvent(c)
              && (c.TransitionOperation? ==> forall st :: st in s.steps ==> s.steps[st].parentId != c.transition.operationId)
  {
    if c.TransitionOperation? {
      var steps := StepsOf(s, c.transition.operationId);
      assert forall st :: st in steps <==> st in s.steps && s.steps[st].parentId == c.transition.operationId;
      assert steps == {} <==> forall st :: st !in steps;
    }
  }

  // ---------------------------------------------------------------- any clients

  /** What the given requests leave, those that are disciplined in their turn. */
  ghost function AllServed(s: State, requests: seq<Request>): State
    decreases |requests|
  {
    if requests == [] then s else AllServed(AnyServed(s, requests[0]), requests[1..])
  }

  ghost function AnyServed(s: State, request: Request): State {
    if Disciplined(s, request.call) then Next(s, request.call, request.failAudit) else s
  }

  /** Serves a request of anybody, for whatever operation and at whatever time. */
  method ServeAny(repo: MutationRepository, request: Request)
    requires repo.Valid() && Inv(repo.View())
    modifies repo
    ensures repo.Valid() && Inv(repo.View()) && Evolves(old(repo.View()), repo.View())
    ensures repo.View() == AnyServed(old(repo.View()), request)
  {
    hide Inv, Structural, Commit, Decide, Evolves;
    var c := request.call;
    var stepless := c.TransitionOperation? ==>
      forall st :: st in repo.steps ==> repo.steps[st].parentId != c.transition.operationId;
    SteplessIff(repo.View(), c);
    if stepless && !PassesDispatchEvent(c) {
      repo.failNextAudit := request.failAudit;
      CallKeepsInv(repo.View(), c, request.failAudit);
      CallEvolves(repo.View(), c, request.failAudit);
      var _ := Serve(repo, c);
    } else {
      SameEvolves(repo.View());
    }
  }

  method ServeAll(repo: MutationRepository, requests: seq<Request>)
    requires repo.Valid() && Inv(repo.View())
    modifies repo
    ensures repo.Valid() && Inv(repo.View()) && Evolves(old(repo.View()), repo.View())
    ensures repo.View() == AllServed(old(repo.View()), requests)
  {
    hide Inv, Structural, Evolves, AnyServed;
    ghost var s := repo.View();
    SameEvolves(s);
    for n := 0 to |requests|
      invariant repo.Valid() && Inv(repo.View()) && Evolves(s, repo.View())
      invariant AllServed(s, requests) == AllServed(repo.View(), requests[n..])
    {
      ghost var t := repo.View();
      assert requests[n..][1..] == requests[n + 1..];
      ServeAny(repo, requests[n]);
      EvolvesTransitive(s, t, repo.View());
    }
  }

  lemma SameUndisturbed(s: State, id: Id, held: Option<Lease>)
    requires Guarded(s, id, held)
    ensures Undisturbed(s, s, id)
  {
  }

  lemma UndisturbedTransitive(s: State, t: State, u: State, id: Id)
    requires Undisturbed(s, t, id) && Undisturbed(t, u, id)
    ensures Undisturbed(s, u, id)
  {
  }

  /**
   * Other clients at work between two calls of one client: whichever of the given
   * requests are admitted are served, with or without audit failures.
   */
  method OtherClients(repo: MutationRepository, requests: seq<Request>, id: Id, held: Option<Lease>)
    requires repo.Valid() && Inv(repo.View()) && Guarded(repo.View(), id, held)
    modifies repo
    ensures repo.Valid() && Inv(repo.View()) && Guarded(repo.View(), id, held)
    ensures Undisturbed(old(repo.View()), repo.View(), id)
    ensures repo.View() == Served(old(repo.View()), requests, id, held)
  {
    hide Inv, Structural, Guarded, Undisturbed, ServedOne;
    ghost var s := repo.View();
    SameUndisturbed(s, id, held);
    for n := 0 to |requests|
      invariant repo.Valid() && Inv(repo.View()) && Guarded(repo.View(), id, held) && Undisturbed(s, repo.View(), id)
      invariant Served(s, requests, id, held) == Served(repo.View(), requests[n..], id, held)
    {
      ghost var t := repo.View();
      assert requests[n..][1..] == requests[n + 1..];
      ServeOther(repo, requests[n], id, held);
      UndisturbedTransitive(s, t, repo.View(), id);
    }
  }

  // ---------------------------------------------------------------- before the lease

  /** Nobody unfinished or quarantined holds the key. */
  predicate KeyFree(s: State, key: Id) {
    key in s.locks && s.locks[key].owner in s.operations ==>
      IsTerminal(s.operations[s.locks[key].owner].verdict.status) && s.operations[s.locks[key].owner].verdict.status != Indeterminate
  }

  /**
   * `acquireLease` does not look at the status of the operation it is asked for: it hands a fresh
   * lock to a finished operation exactly when the key is free. A recovery pass between a claim and
   * its lease makes this happen; nothing after the claim rules it out but the operation's own status.
   */
  lemma LeaseToFinishedIff(s: State, id: Id, key: Id, now: int, expiresAt: int)
    requires Inv(s) && id in s.operations && s.operations[id].plan.operationKey == key && now < expiresAt
    requires IsTerminal(s.operations[id].verdict.status)
    ensures var d := DecideAcquire(s, key, id, now, expiresAt);
            && (d.reply.Granted? <==> KeyFree(s, key))
            && (d.reply.Granted? ==> Holds(Commit(s, d.effect), id, d.reply.lease) && Commit(s, d.effect).operations == s.operations)
  {
    hide OneChild, Quarantined, ParentsAgree, DispatchesConsistent, LogsNumbered, DispatchesLogged, PathsLegal;
  }
}
