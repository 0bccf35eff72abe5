/**
 * The control-plane service that performs one mutation through the runtime
 * gateway, as a client of the shared repository. The gateway, the clock, the
 * other clients and which of this client's audit writes fail are parameters.
 */
module GatewayService {
  import opened Basics
  import opened ActionStatuses
  import opened Aggregation
  import opened MutationModel
  import opened MutationInvariants
  import opened MutationCalls
  import opened MutationClients
  import opened Repository
  import ClaimKeys

  const LEASE_MS := 120_000

  /** What the gateway answers or throws, with the recorded reason. */
  datatype GatewayReply = Succeeds | Fails(timedOut: bool, reason: string)

  /** Which of the service's own audit writes fail. */
  datatype Faults = Faults(claim: bool, reject: bool, begin: bool, verify: bool, finish: bool)

  /** `Interrupted` is a refused write that leaves the operation in the given status. */
  datatype ServiceReply =
    | ClaimRefused(error: MutationError)
    | ReplayedOperation(operationId: Id)
    | OperationConflict
    | MutationSucceeded
    | MutationFailed(status: ActionStatus)
    | Interrupted(status: ActionStatus, leased: bool)

  function MappedStatus(timedOut: bool): ActionStatus {
    if timedOut then TimedOut else Failed
  }

  // ---------------------------------------------------------------- what is promised

  /**
   * Which of the service's writes fail: those whose audit write does, and those under the lease
   * whose clock reading does not come before `until`, when the lease expires.
   */
  function Failing(f: Faults, gateway: GatewayReply, clock: nat -> int, until: int): Faults {
    f.(begin := f.begin || clock(0) >= until,
       verify := f.verify || clock(2) >= until,
       finish := f.finish || (if gateway.Succeeds? then clock(3) else clock(2)) >= until)
  }

  /** Some write the service comes to make after its claim fails. */
  predicate WriteFails(leased: bool, gateway: GatewayReply, f: Faults) {
    if leased then f.begin || f.finish || (gateway.Succeeds? && f.verify) else f.reject
  }

  /** The answer past a created claim, given whether the lease was granted. */
  function Answer(leased: bool, gateway: GatewayReply, f: Faults): ServiceReply {
    if !leased then if f.reject then Interrupted(Validated, false) else OperationConflict
    else if f.begin then Interrupted(Validated, true)
    else match gateway
      case Fails(timedOut, _) => if f.finish then Interrupted(Executing, true) else MutationFailed(MappedStatus(timedOut))
      case Succeeds =>
        if f.verify then Interrupted(Executing, true)
        else if f.finish then Interrupted(Verifying, true)
        else MutationSucceeded
  }

  /** The row is the one this claim created: its request, its deadline and its creation are unchanged. */
  predicate CreatedBy(op: Operation, i: ClaimInput) {
    op.plan == i.plan && op.fingerprint == i.fingerprint && op.deadlineAt == i.deadlineAt && op.createdAt == i.now
  }

  /** The row is finished with the given verdict and times, and holds no lock. */
  ghost predicate Closed(s: State, id: Id, verdict: Verdict, progress: Progress) {
    && id in s.operations && s.operations[id].verdict == verdict && IsTerminal(verdict.status)
    && s.operations[id].progress == progress && HoldsNothing(s, id)
  }

  /** Unfinished in the given status; with its lock if it had got one. */
  ghost predicate LeftOpen(s: State, id: Id, status: ActionStatus, leased: bool) {
    && id in s.operations && s.operations[id].verdict.status == status && !IsTerminal(status)
    && if leased then HoldsLock(s, s.operations[id]) else HoldsNothing(s, id)
  }

  /** The verdict of an operation that is still under way. */
  function OpenVerdict(status: ActionStatus): Verdict {
    Verdict(status, if status == Verifying then VerificationPending else VerificationNotStarted, RecoveryNone, EffectNotStarted, None)
  }

  /** What an answer past a created claim says about the stored operation. */
  ghost predicate Stored(s: State, i: ClaimInput, r: ServiceReply, gateway: GatewayReply, clock: nat -> int) {
    var id := i.plan.operationId;
    && id in s.operations && CreatedBy(s.operations[id], i)
    && match r
       case OperationConflict =>
         Closed(s, id, Verdict(Rejected, VerificationNotStarted, RecoveryNone, EffectNotStarted, Some("OPERATION_IN_PROGRESS")),
                Progress(None, Some(clock(1)), clock(0)))
       case MutationSucceeded =>
         Closed(s, id, Verdict(Succeeded, Verified, RecoveryNone, EffectNotStarted, None), Progress(Some(clock(1)), Some(clock(4)), clock(3)))
       case MutationFailed(status) =>
         && gateway.Fails?
         && Closed(s, id, Verdict(status, VerificationNotStarted, RecoveryNone, EffectNotStarted, Some(gateway.reason)),
                   Progress(Some(clock(1)), Some(clock(3)), clock(2)))
       case Interrupted(status, leased) => LeftOpen(s, id, status, leased) && s.operations[id].verdict == OpenVerdict(status)
       case _ => false
  }

  /** What the gateway's reply makes of the operation, stored and answered. */
  ghost predicate Reported(s: State, id: Id, r: ServiceReply, gateway: GatewayReply)
    requires id in s.operations
  {
    var v := s.operations[id].verdict;
    && (v.status == Succeeded <==> gateway.Succeeds?) && (r == MutationSucceeded <==> gateway.Succeeds?)
    && (v.status == TimedOut <==> gateway.Fails? && gateway.timedOut)
    && (v.status == ActionStatus.Failed <==> gateway.Fails? && !gateway.timedOut)
    && (gateway.Fails? ==> r == MutationFailed(v.status) && v.reason == Some(gateway.reason))
    && (gateway.Succeeds? ==> v.reason == None && v.verification == Verified)
  }

  /** Past a granted lease, with no failing write, the gateway's reply alone decides what is stored and answered. */
  lemma GatewayDecides(s: State, i: ClaimInput, gateway: GatewayReply, f: Faults, clock: nat -> int)
    requires Stored(s, i, Answer(true, gateway, f), gateway, clock) && !WriteFails(true, gateway, f)
    ensures i.plan.operationId in s.operations && Reported(s, i.plan.operationId, Answer(true, gateway, f), gateway)
  {
  }

  /** The service closes what it opened exactly when no write after the claim fails. */
  lemma ClosedIff(s: State, i: ClaimInput, leased: bool, gateway: GatewayReply, f: Faults, clock: nat -> int)
    requires Stored(s, i, Answer(leased, gateway, f), gateway, clock)
    ensures FinishedAndFree(s, i.plan.operationId) <==> !WriteFails(leased, gateway, f)
    ensures WriteFails(leased, gateway, f) && leased ==> HoldsLock(s, s.operations[i.plan.operationId])
    ensures s.operations[i.plan.operationId].verdict.status == Succeeded ==> gateway.Succeeds? && leased
  {
  }

  ghost predicate FinishedAndFree(s: State, id: Id) {
    id in s.operations && IsTerminal(s.operations[id].verdict.status) && HoldsNothing(s, id)
  }

  /** An operation left open with its lock keeps all others from acquiring its key, also after the lease expires. */
  lemma LeftOpenBlocks(s: State, id: Id, status: ActionStatus, other: Id, now: int, expiresAt: int)
    requires Keyed(s) && LeftOpen(s, id, status, true) && other != id && now < expiresAt
    ensures DecideAcquire(s, s.operations[id].plan.operationKey, other, now, expiresAt) == Decision(Declined, NoEffect)
  {
  }

  // ---------------------------------------------------------------- the stages of one mutation

  ghost predicate Stepless(s: State, id: Id) {
    forall k :: k in s.steps ==> s.steps[k].parentId != id
  }

  /** Claimed, stored as `op`, and holding no lock yet. */
  ghost predicate Opened(s: State, id: Id, op: Operation) {
    && id in s.operations && s.operations[id] == op && op.verdict.status == Validated
    && Stepless(s, id) && HoldsNothing(s, id)
  }

  /** Stored as `op`, under its lease. */
  ghost predicate Running(s: State, id: Id, lease: Lease, op: Operation) {
    && id in s.operations && s.operations[id] == op && op.plan.operationKey == lease.operationKey
    && (IsActive(op.verdict.status) ==> op.token == Some(lease.token))
    && Stepless(s, id) && Holds(s, id, lease)
  }

  lemma ClaimOpens(s: State, i: ClaimInput, fault: bool)
    requires Keyed(s) && LocksCurrent(s)
    ensures var d := DecideClaim(s, i, fault);
            var t := Commit(s, d.effect);
            && (d.reply.Failure? || d.reply.Replayed? || d.reply.Created?)
            && (d.reply.Created? ==>
                  Opened(t, i.plan.operationId, FreshOperation(i)) && (KeyFree(t, i.plan.operationKey) <==> KeyFree(s, i.plan.operationKey)))
  {
    hide ClaimKeys.ClaimKey;
  }

  lemma LeaseStarts(s: State, id: Id, op: Operation, now: int, expiresAt: int)
    requires LocksCurrent(s) && Opened(s, id, op) && now < expiresAt
    ensures var d := DecideAcquire(s, op.plan.operationKey, id, now, expiresAt);
            var t := Commit(s, d.effect);
            && (d.reply.Granted? <==> KeyFree(s, op.plan.operationKey))
            && (d.reply.Granted? ==> Running(t, id, d.reply.lease, op) && d.reply.lease.expiresAt == expiresAt)
            && (!d.reply.Granted? ==> d.reply == Declined && t == s)
  {
  }

  function Change(id: Id, from: ActionStatus, to: ActionStatus, now: int, eventType: EventType, ownership: Option<Lease>): TransitionInput {
    TransitionInput(id, [from], to, now, eventType, None, None, None, None, None, None, ownership, false, false)
  }

  lemma TransitionKeepsInv(s: State, i: TransitionInput, fault: bool)
    requires Inv(s) && Stepless(s, i.operationId) && i.eventType != DispatchEvent
    ensures Inv(Commit(s, DecideTransition(s, i, fault).effect))
  {
    hide Inv, DecideTransition;
    assert StepsOf(s, i.operationId) == {};
    CallKeepsInv(s, TransitionOperation(i), fault);
  }

  /** Stored as the finished `op`, and holding no lock. */
  ghost predicate Ended(s: State, id: Id, op: Operation) {
    id in s.operations && s.operations[id] == op && IsTerminal(op.verdict.status) && HoldsNothing(s, id)
  }

  lemma Decides(s: State, i: TransitionInput, lease: Lease, op: Operation, fault: bool)
    requires Running(s, i.operationId, lease, op)
    requires i.expected == [op.verdict.status] && TransitionAllowed(op.verdict.status, i.status) && i.ownership == Some(lease) && !i.adopt
    requires i.status != Indeterminate
    ensures var d := DecideTransition(s, i, fault);
            if i.now >= lease.expiresAt then d == Refuse(StaleOwnership)
            else if fault then d == Refuse(AuditPersistenceFailed)
            else
              && d.reply == Done && d.effect.operation == Some(OperationAfterTransition(op, i))
              && d.effect.step == None
              && d.effect.lock == if IsTerminal(i.status) && i.release then DropLock(lease.operationKey) else KeepLocks
  {
    hide NextEvent, Stepless;
  }

  /** A transition under the lease moves the operation on, or leaves everything when it comes too late or its audit write fails. */
  lemma Advances(s: State, i: TransitionInput, lease: Lease, op: Operation, fault: bool)
    requires Keyed(s) && LocksCurrent(s) && Running(s, i.operationId, lease, op)
    requires i.expected == [op.verdict.status] && TransitionAllowed(op.verdict.status, i.status) && i.ownership == Some(lease) && !i.adopt
    requires i.status != Indeterminate && (i.release <==> IsTerminal(i.status))
    ensures var d := DecideTransition(s, i, fault);
            var t := Commit(s, d.effect);
            && (d.reply == Done <==> !fault && i.now < lease.expiresAt)
            && if d.reply != Done then t == s
               else if i.release then Ended(t, i.operationId, OperationAfterTransition(op, i))
               else Running(t, i.operationId, lease, OperationAfterTransition(op, i))
  {
    Decides(s, i, lease, op, fault);
    hide DecideTransition;
    if fault || i.now >= lease.expiresAt { CommitNothing(s); }
  }

  /** Rejecting an operation that was refused its lease touches no lock. */
  lemma Rejects(s: State, i: TransitionInput, op: Operation, fault: bool)
    requires Keyed(s) && Opened(s, i.operationId, op)
    requires i.expected == [Validated] && i.status == Rejected && i.ownership.None? && !i.adopt && !i.release
    ensures var d := DecideTransition(s, i, fault);
            var t := Commit(s, d.effect);
            && (d.reply == Done <==> !fault) && t.locks == s.locks
            && if fault then t == s else Ended(t, i.operationId, OperationAfterTransition(op, i))
  {
    hide NextEvent;
    if fault { CommitNothing(s); }
  }

  lemma StaysOpened(s: State, t: State, id: Id, op: Operation)
    requires Opened(s, id, op) && Undisturbed(s, t, id)
    ensures Opened(t, id, op)
  {
  }

  lemma StaysRunning(s: State, t: State, id: Id, lease: Lease, op: Operation)
    requires Running(s, id, lease, op) && Undisturbed(s, t, id)
    ensures Running(t, id, lease, op)
  {
  }

  lemma RunningGuarded(s: State, id: Id, lease: Lease, op: Operation)
    requires LocksCurrent(s) && Running(s, id, lease, op) && !IsTerminal(op.verdict.status)
    ensures Guarded(s, id, Some(lease))
  {
  }

  /** A running operation that gets no further is left open. */
  lemma RunningLeftOpen(s: State, i: ClaimInput, lease: Lease, op: Operation, gateway: GatewayReply, clock: nat -> int)
    requires Keyed(s) && Running(s, i.plan.operationId, lease, op) && !IsTerminal(op.verdict.status) && CreatedBy(op, i)
    requires op.verdict == OpenVerdict(op.verdict.status)
    ensures Stored(s, i, Interrupted(op.verdict.status, true), gateway, clock)
  {
  }

  // ---------------------------------------------------------------- the service

  /** Other clients at work while the operation runs under its lease. */
  method WaitRunning(repo: MutationRepository, id: Id, lease: Lease, ghost op: Operation, others: seq<Request>)
    requires repo.Valid() && Inv(repo.View()) && Running(repo.View(), id, lease, op) && !IsTerminal(op.verdict.status)
    modifies repo
    ensures repo.Valid() && Inv(repo.View()) && Running(repo.View(), id, lease, op)
  {
    hide Structural, Undisturbed, LocksCurrent, Quarantined, ParentsAgree, DispatchesConsistent, LogsNumbered, DispatchesLogged,
         PathsLegal, Guarded, Running, Served;
    ghost var s := repo.View();
    RunningGuarded(s, id, lease, op);
    OtherClients(repo, others, id, Some(lease));
    StaysRunning(s, repo.View(), id, lease, op);
  }

  /** Other clients at work before the operation has a lease. */
  method WaitOpened(repo: MutationRepository, id: Id, ghost op: Operation, others: seq<Request>)
    requires repo.Valid() && Inv(repo.View()) && Opened(repo.View(), id, op)
    modifies repo
    ensures repo.Valid() && Inv(repo.View()) && Opened(repo.View(), id, op)
    ensures repo.View() == Served(old(repo.View()), others, id, None)
  {
    hide Inv, Structural, Undisturbed, Served;
    ghost var s := repo.View();
    OtherClients(repo, others, id, None);
    StaysOpened(s, repo.View(), id, op);
  }

  /** One transition under the lease, whose audit write fails if `fault`; it is refused when it comes too late. */
  method Transition(repo: MutationRepository, i: TransitionInput, lease: Lease, ghost op: Operation, fault: bool) returns (ok: bool)
    requires repo.Valid() && Inv(repo.View()) && Running(repo.View(), i.operationId, lease, op)
    requires i.expected == [op.verdict.status] && TransitionAllowed(op.verdict.status, i.status) && i.ownership == Some(lease) && !i.adopt
    requires i.eventType != DispatchEvent && i.status != Indeterminate && (i.release <==> IsTerminal(i.status))
    modifies repo
    ensures repo.Valid() && Inv(repo.View()) && ok == (!fault && i.now < lease.expiresAt)
    ensures if !ok then repo.View() == old(repo.View())
            else if i.release then Ended(repo.View(), i.operationId, OperationAfterTransition(op, i))
            else Running(repo.View(), i.operationId, lease, OperationAfterTransition(op, i))
  {
    hide Keyed, OneChild, Commit, DecideTransition, LocksCurrent, Quarantined, ParentsAgree,
         DispatchesConsistent, LogsNumbered, DispatchesLogged, PathsLegal, Stepless, Ended, Holds, OperationAfterTransition;
    TransitionKeepsInv(repo.View(), i, fault);
    hide Running;
    Advances(repo.View(), i, lease, op, fault);
    repo.failNextAudit := fault;
    var reply := repo.TransitionWithAudit(i);
    ok := reply == Done;
  }

  /** Closes an operation whose lease was refused; the lock table stays as it is. */
  method Reject(repo: MutationRepository, i: ClaimInput, ghost gateway: GatewayReply, clock: nat -> int, fault: bool) returns (r: ServiceReply)
    requires repo.Valid() && Inv(repo.View()) && Opened(repo.View(), i.plan.operationId, FreshOperation(i))
    modifies repo
    ensures repo.Valid() && Inv(repo.View()) && repo.locks == old(repo.locks)
    ensures r == (if fault then Interrupted(Validated, false) else OperationConflict) && Stored(repo.View(), i, r, gateway, clock)
  {
    hide Keyed, OneChild, Commit, DecideTransition, LocksCurrent, Quarantined, ParentsAgree,
         DispatchesConsistent, LogsNumbered, DispatchesLogged, PathsLegal, Stepless, HoldsNothing;
    var change := Change(i.plan.operationId, Validated, Rejected, clock(0), FailedEvent, None).(
      reason := Some("OPERATION_IN_PROGRESS"), completedAt := Some(Some(clock(1))));
    TransitionKeepsInv(repo.View(), change, fault);
    Rejects(repo.View(), change, FreshOperation(i), fault);
    repo.failNextAudit := fault;
    var reply := repo.TransitionWithAudit(change);
    r := if reply == Done then OperationConflict else Interrupted(Validated, false);
  }

  /** The row once the operation executes. */
  ghost function Begun(i: ClaimInput, lease: Lease, clock: nat -> int): Operation {
    FreshOperation(i).(verdict := FreshVerdict.(status := Executing), token := Some(lease.token),
                       progress := Progress(Some(clock(1)), None, clock(0)))
  }

  /** The gateway failed: one last transition. */
  method RecordFailure(repo: MutationRepository, i: ClaimInput, lease: Lease, clock: nat -> int, gateway: GatewayReply, fault: bool)
    returns (r: ServiceReply)
    requires repo.Valid() && Inv(repo.View()) && gateway.Fails? && Running(repo.View(), i.plan.operationId, lease, Begun(i, lease, clock))
    modifies repo
    ensures repo.Valid() && Inv(repo.View()) && Stored(repo.View(), i, r, gateway, clock)
    ensures r == if fault || clock(2) >= lease.expiresAt then Interrupted(Executing, true) else MutationFailed(MappedStatus(gateway.timedOut))
  {
    hide Keyed, OneChild, LocksCurrent, Quarantined, ParentsAgree, DispatchesConsistent, LogsNumbered, DispatchesLogged,
         PathsLegal, Running, HoldsNothing;
    RunningLeftOpen(repo.View(), i, lease, Begun(i, lease, clock), gateway, clock);
    var toFailed := Change(i.plan.operationId, Executing, MappedStatus(gateway.timedOut), clock(2), FailedEvent, Some(lease));
    var ok := Transition(repo, toFailed.(reason := Some(gateway.reason), completedAt := Some(Some(clock(3))), release := true),
                         lease, Begun(i, lease, clock), fault);
    r := if ok then MutationFailed(MappedStatus(gateway.timedOut)) else Interrupted(Executing, true);
  }

  /** From VERIFYING to SUCCEEDED. */
  method FinishVerified(
    repo: MutationRepository, i: ClaimInput, lease: Lease, clock: nat -> int, ghost gateway: GatewayReply, fault: bool, ghost op: Operation)
    returns (r: ServiceReply)
    requires repo.Valid() && Inv(repo.View()) && Running(repo.View(), i.plan.operationId, lease, op) && CreatedBy(op, i)
    requires op.verdict == OpenVerdict(Verifying) && op.progress.startedAt == Some(clock(1))
    modifies repo
    ensures repo.Valid() && Inv(repo.View()) && Stored(repo.View(), i, r, gateway, clock)
    ensures r == if fault || clock(3) >= lease.expiresAt then Interrupted(Verifying, true) else MutationSucceeded
  {
    hide Keyed, OneChild, LocksCurrent, Quarantined, ParentsAgree, DispatchesConsistent, LogsNumbered, DispatchesLogged,
         PathsLegal, Running, HoldsNothing;
    RunningLeftOpen(repo.View(), i, lease, op, gateway, clock);
    var toSucceeded := Change(i.plan.operationId, Verifying, Succeeded, clock(3), CompletedEvent, Some(lease));
    var ok := Transition(repo, toSucceeded.(verification := Some(Verified), completedAt := Some(Some(clock(4))), release := true),
                         lease, op, fault);
    r := if ok then MutationSucceeded else Interrupted(Verifying, true);
  }

  /** The gateway succeeded: through VERIFYING to SUCCEEDED. */
  method RecordSuccess(
    repo: MutationRepository, i: ClaimInput, lease: Lease, clock: nat -> int, gateway: GatewayReply, faults: Faults,
    duringVerification: seq<Request>)
    returns (r: ServiceReply)
    requires repo.Valid() && Inv(repo.View()) && gateway.Succeeds? && Running(repo.View(), i.plan.operationId, lease, Begun(i, lease, clock))
    modifies repo
    ensures repo.Valid() && Inv(repo.View()) && Stored(repo.View(), i, r, gateway, clock)
    ensures r == if faults.verify || clock(2) >= lease.expiresAt then Interrupted(Executing, true)
                 else if faults.finish || clock(3) >= lease.expiresAt then Interrupted(Verifying, true) else MutationSucceeded
  {
    hide Keyed, OneChild, LocksCurrent, Quarantined, ParentsAgree, DispatchesConsistent, LogsNumbered, DispatchesLogged,
         PathsLegal, Running, Stored, HoldsNothing;
    var id := i.plan.operationId;
    RunningLeftOpen(repo.View(), i, lease, Begun(i, lease, clock), gateway, clock);
    var toVerifying := Change(id, Executing, Verifying, clock(2), StateChangedEvent, Some(lease)).(verification := Some(VerificationPending));
    var ok := Transition(repo, toVerifying, lease, Begun(i, lease, clock), faults.verify);
    if !ok { return Interrupted(Executing, true); }
    ghost var op := OperationAfterTransition(Begun(i, lease, clock), toVerifying);
    WaitRunning(repo, id, lease, op, duringVerification);
    r := FinishVerified(repo, i, lease, clock, gateway, faults.finish, op);
  }

  /** From the granted lease on: the gateway call and everything after it. */
  method CallGateway(
    repo: MutationRepository, i: ClaimInput, lease: Lease, clock: nat -> int, gateway: GatewayReply, faults: Faults,
    duringGateway: seq<Request>, duringVerification: seq<Request>)
    returns (r: ServiceReply)
    requires repo.Valid() && Inv(repo.View()) && Running(repo.View(), i.plan.operationId, lease, FreshOperation(i))
    modifies repo
    ensures repo.Valid() && Inv(repo.View())
    ensures r == Answer(true, gateway, Failing(faults, gateway, clock, lease.expiresAt)) && Stored(repo.View(), i, r, gateway, clock)
  {
    hide Keyed, OneChild, LocksCurrent, Quarantined, ParentsAgree, DispatchesConsistent, LogsNumbered, DispatchesLogged,
         PathsLegal, Running, Stored, HoldsNothing;
    var id := i.plan.operationId;
    RunningLeftOpen(repo.View(), i, lease, FreshOperation(i), gateway, clock);
    var toExecuting := Change(id, Validated, Executing, clock(0), StateChangedEvent, Some(lease)).(startedAt := Some(Some(clock(1))));
    var ok := Transition(repo, toExecuting, lease, FreshOperation(i), faults.begin);
    if !ok { return Interrupted(Validated, true); }
    assert OperationAfterTransition(FreshOperation(i), toExecuting) == Begun(i, lease, clock);
    WaitRunning(repo, id, lease, Begun(i, lease, clock), duringGateway);
    match gateway
    case Fails(_, _) => r := RecordFailure(repo, i, lease, clock, gateway, faults.finish);
    case Succeeds => r := RecordSuccess(repo, i, lease, clock, gateway, faults, duringVerification);
  }

  /** The state right after the claim. */
  ghost function AfterClaim(s: State, i: ClaimInput, fault: bool): State {
    Commit(s, DecideClaim(s, i, fault).effect)
  }

  /** What the other clients make of the state after the claim, up to the request for the lease. */
  ghost function AsksLease(s: State, i: ClaimInput, fault: bool, afterClaim: seq<Request>): State {
    Served(AfterClaim(s, i, fault), afterClaim, i.plan.operationId, None)
  }

  /** What the other clients alone make of the state after the claim, up to the rejection. */
  ghost function WithoutLease(s: State, i: ClaimInput, fault: bool, afterClaim: seq<Request>, afterLease: seq<Request>): State {
    Served(AsksLease(s, i, fault, afterClaim), afterLease, i.plan.operationId, None)
  }

  /** With no other client at work, the claim leaves the lock table as it found it. */
  lemma QuietLocks(s: State, i: ClaimInput, fault: bool)
    ensures WithoutLease(s, i, fault, [], []).locks == s.locks
  {
    hide ClaimKeys.ClaimKey;
  }

  /** From the claimed operation on: the lease and the gateway call, or the rejection. */
  method Conduct(
    repo: MutationRepository, i: ClaimInput, clock: nat -> int, gateway: GatewayReply, faults: Faults,
    afterLease: seq<Request>, duringGateway: seq<Request>, duringVerification: seq<Request>)
    returns (r: ServiceReply, leased: bool)
    requires repo.Valid() && Inv(repo.View()) && Opened(repo.View(), i.plan.operationId, FreshOperation(i))
    modifies repo
    ensures repo.Valid() && Inv(repo.View()) && leased == KeyFree(old(repo.View()), i.plan.operationKey)
    ensures r == Answer(leased, gateway, Failing(faults, gateway, clock, i.now + LEASE_MS)) && Stored(repo.View(), i, r, gateway, clock)
    ensures !leased ==> repo.locks == Served(old(repo.View()), afterLease, i.plan.operationId, None).locks
  {
    hide Keyed, OneChild, LocksCurrent, Quarantined, ParentsAgree, DispatchesConsistent, LogsNumbered, DispatchesLogged,
         PathsLegal, Commit, DecideAcquire, Running, Opened, Stored, Answer, KeyFree, Failing, Served;
    var id, key, until := i.plan.operationId, i.plan.operationKey, i.now + LEASE_MS;
    LeaseStarts(repo.View(), id, FreshOperation(i), i.now, until);
    CallKeepsInv(repo.View(), MutationModel.AcquireLease(key, id, i.now, until), false);
    var reply := repo.AcquireLease(key, id, i.now, until);
    leased := reply.Granted?;
    if leased {
      WaitRunning(repo, id, reply.lease, FreshOperation(i), afterLease);
      r := CallGateway(repo, i, reply.lease, clock, gateway, faults, duringGateway, duringVerification);
    } else {
      WaitOpened(repo, id, FreshOperation(i), afterLease);
      r := Reject(repo, i, gateway, clock, faults.reject);
      RejectedAnswer(gateway, faults, clock, until);
    }
  }

  /**
   * Performs one mutation. `clock(n)` is the n-th clock reading after the claim, at any time; the
   * other clients call in between.
   */
  method Perform(
    repo: MutationRepository, i: ClaimInput, clock: nat -> int, gateway: GatewayReply, faults: Faults,
    afterClaim: seq<Request>, afterLease: seq<Request>, duringGateway: seq<Request>, duringVerification: seq<Request>)
    returns (r: ServiceReply, leased: bool)
    requires repo.Valid() && Inv(repo.View())
    modifies repo
    ensures repo.Valid() && Inv(repo.View())
    ensures var failing := Failing(faults, gateway, clock, i.now + LEASE_MS);
            match DecideClaim(old(repo.View()), i, faults.claim).reply
            case Created(_) =>
              && r == Answer(leased, gateway, failing) && Stored(repo.View(), i, r, gateway, clock)
              && (FinishedAndFree(repo.View(), i.plan.operationId) <==> !WriteFails(leased, gateway, failing))
              && (leased && !WriteFails(leased, gateway, failing) ==>
                    i.plan.operationId in repo.operations && Reported(repo.View(), i.plan.operationId, r, gateway))
              && leased == KeyFree(AsksLease(old(repo.View()), i, faults.claim, afterClaim), i.plan.operationKey)
              && (afterClaim == [] ==> leased == KeyFree(old(repo.View()), i.plan.operationKey))
              && (!leased ==> repo.locks == WithoutLease(old(repo.View()), i, faults.claim, afterClaim, afterLease).locks)
            case Replayed(id) => r == ReplayedOperation(id) && repo.View() == AfterClaim(old(repo.View()), i, faults.claim)
            case Failure(error) => r == ClaimRefused(error) && repo.View() == AfterClaim(old(repo.View()), i, faults.claim)
            case _ => false
  {
    hide Keyed, OneChild, LocksCurrent, Quarantined, ParentsAgree, DispatchesConsistent, LogsNumbered, DispatchesLogged,
         PathsLegal, Commit, DecideClaim, Opened, Stored, Answer, KeyFree, FinishedAndFree, WriteFails, Failing, Reported;
    var id, key, until := i.plan.operationId, i.plan.operationKey, i.now + LEASE_MS;
    CallKeepsInv(repo.View(), Claim(i), faults.claim);
    ClaimOpens(repo.View(), i, faults.claim);
    repo.failNextAudit := faults.claim;
    var claimed := repo.Claim(i);
    if claimed.Failure? { return ClaimRefused(claimed.error), false; }
    if claimed.Replayed? { return ReplayedOperation(claimed.operationId), false; }
    WaitOpened(repo, id, FreshOperation(i), afterClaim);
    r, leased := Conduct(repo, i, clock, gateway, faults, afterLease, duringGateway, duringVerification);
    ClosedIff(repo.View(), i, leased, gateway, Failing(faults, gateway, clock, until), clock);
    if leased && !WriteFails(true, gateway, Failing(faults, gateway, clock, until)) {
      GatewayDecides(repo.View(), i, gateway, Failing(faults, gateway, clock, until), clock);
    }
  }

  lemma RejectedAnswer(gateway: GatewayReply, faults: Faults, clock: nat -> int, until: int)
    ensures Answer(false, gateway, Failing(faults, gateway, clock, until)) == if faults.reject then Interrupted(Validated, false) else OperationConflict
  {
  }
}
