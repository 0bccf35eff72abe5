/**
 * The recovery pass over operations with one child step. It never runs an executor. Other clients
 * may make any calls between any two calls of the pass.
 */
module StepRecovery {
  import opened Basics
  import opened ActionStatuses
  import opened Aggregation
  import opened MutationModel
  import opened MutationInvariants
  import opened MutationCalls
  import opened MutationRuns
  import opened MutationTheorems
  import opened MutationClients
  import opened Repository

  /** The key is locked: by a lease that has not expired, or by a quarantined owner. */
  predicate Locked(s: State, key: Id, now: int) {
    && key in s.locks
    && (s.locks[key].expiresAt > now
        || (s.locks[key].owner in s.operations && s.operations[s.locks[key].owner].verdict.status == Indeterminate))
  }

  /** Rows of other operations and other operations' steps are as before. */
  ghost predicate OthersKept(s: State, t: State, id: Id) {
    && t.operations.Keys == s.operations.Keys && t.steps.Keys == s.steps.Keys
    && (forall k :: k in s.operations && k != id ==> t.operations[k] == s.operations[k])
    && (forall k :: k in s.steps && s.steps[k].parentId != id ==> t.steps[k] == s.steps[k])
    && (forall k :: k in s.steps ==> t.steps[k].parentId == s.steps[k].parentId)
    && (forall k :: k in s.operations ==> t.operations[k].plan == s.operations[k].plan)
  }

  ghost predicate LocksKept(s: State, t: State, now: int) {
    forall key :: Locked(s, key, now) ==> Locked(t, key, now)
  }

  // ---------------------------------------------------------------- one candidate

  lemma LeaseTaken(s: State, key: Id, id: Id, now: int, expiresAt: int)
    requires Inv(s) && now < expiresAt
    ensures var d := DecideAcquireRecovery(s, key, id, now, expiresAt);
            var t := Commit(s, d.effect);
            && Inv(t) && t.operations == s.operations && t.steps == s.steps
            && LocksKept(s, t, now)
            && (d.reply.Granted? ==> t.locks == s.locks[key := d.reply.lease] && d.reply.lease.operationKey == key
                                     && d.reply.lease.owner == id && d.reply.lease.expiresAt == expiresAt && !Locked(s, key, now)
                                     && id in s.operations && !IsTerminal(s.operations[id].verdict.status) && Evolves(s, t))
            && (!d.reply.Granted? ==>
                  && d.reply == Declined && t == s
                  && (id in s.operations && s.operations[id].plan.operationKey == key ==>
                        IsTerminal(s.operations[id].verdict.status) || Locked(s, key, now)))
  {
    hide Inv, Structural, Quarantined, ParentsAgree, DispatchesConsistent, LogsNumbered, DispatchesLogged, PathsLegal;
    var c := AcquireRecoveryLease(key, id, now, expiresAt);
    assert Disciplined(s, c);
    CallKeepsInv(s, c, false);
    assert Evolves(s, Next(s, c, false)) by { CallEvolves(s, c, false); }
    hide Evolves;
    assert Next(s, c, false) == Commit(s, DecideAcquireRecovery(s, key, id, now, expiresAt).effect);
  }

  /** What trying to recover one step may do. */
  ghost predicate Tried(s: State, t: State, d: Decision, id: Id, stepId: Id, key: Id) {
    && OthersKept(s, t, id) && stepId in t.steps && id in t.operations
    && t.locks - {key} == s.locks - {key}
    && (d.reply == Done || d == Refuse(IllegalTransition) || d == Refuse(AuditPersistenceFailed))
    && (d.reply == Done ==> IsTerminal(t.steps[stepId].verdict.status) && IsTerminal(t.operations[id].verdict.status))
    && (d.reply != Done ==> t == s)
  }

  lemma StepTried(s: State, id: Id, stepId: Id, lease: Lease, now: int, fault: bool)
    requires Inv(s) && HasStep(s, id, stepId) && StepsOf(s, id) == {stepId}
    requires !IsTerminal(s.steps[stepId].verdict.status)
    requires lease.operationKey == s.operations[id].plan.operationKey && lease.owner == id
    requires lease.operationKey in s.locks && s.locks[lease.operationKey] == lease && lease.expiresAt > now
    ensures var d := DecideRecoverStep(s, id, stepId, lease, now, fault);
            var t := Commit(s, d.effect);
            Inv(t) && Tried(s, t, d, id, stepId, lease.operationKey)
  {
    hide Keyed, OneChild, LocksCurrent, Quarantined, ParentsAgree, DispatchesConsistent, LogsNumbered, DispatchesLogged,
         PathsLegal, Tried, Commit;
    OperationKeyed(s, id);
    var c := RecoverStep(id, stepId, lease, now);
    CallKeepsInv(s, c, fault);
    RecoveryShape(s, id, stepId, lease, now, fault);
    var d := DecideRecoverStep(s, id, stepId, lease, now, fault);
    if d.reply == Done {
      RecoveryCommit(s, d, id, stepId, lease.operationKey);
    } else {
      CommitNothing(s);
      NothingTried(s, d, id, stepId, lease.operationKey);
    }
  }

  /** The effect of a successful recovery, field by field. */
  ghost predicate Recovers(s: State, e: Effect, id: Id, stepId: Id, key: Id) {
    && e.operation.Some? && e.operation.value.plan.operationId == id && id in s.operations
    && e.operation.value.plan == s.operations[id].plan && IsTerminal(e.operation.value.verdict.status)
    && e.step.Some? && e.step.value.id == stepId && e.step.value.parentId == id && IsTerminal(e.step.value.verdict.status)
    && (e.lock == KeepLocks || e.lock == DropLock(key))
  }

  lemma RecoveryShape(s: State, id: Id, stepId: Id, lease: Lease, now: int, fault: bool)
    requires Keyed(s) && HasStep(s, id, stepId) && !IsTerminal(s.steps[stepId].verdict.status)
    requires Owns(s, s.operations[id], lease.operationKey, lease.token, now, true)
    ensures var d := DecideRecoverStep(s, id, stepId, lease, now, fault);
            && (d.reply == Done || d == Refuse(IllegalTransition) || d == Refuse(AuditPersistenceFailed))
            && (d.reply == Done ==> Recovers(s, d.effect, id, stepId, lease.operationKey))
  {
    hide ChildThenParent;
  }

  lemma RecoveryCommit(s: State, d: Decision, id: Id, stepId: Id, key: Id)
    requires d.reply == Done && Recovers(s, d.effect, id, stepId, key)
    requires HasStep(s, id, stepId) && StepsOf(s, id) == {stepId}
    ensures Tried(s, Commit(s, d.effect), d, id, stepId, key)
  {
    forall k | k in s.steps && s.steps[k].parentId == id ensures k == stepId { assert k in StepsOf(s, id); }
  }

  lemma NothingTried(s: State, d: Decision, id: Id, stepId: Id, key: Id)
    requires (d == Refuse(IllegalTransition) || d == Refuse(AuditPersistenceFailed)) && HasStep(s, id, stepId)
    ensures Tried(s, s, d, id, stepId, key)
  {
  }

  /** Keys that were locked stay locked when one candidate with a lease of its own is tried. */
  lemma TriedKeepsLocks(s: State, t: State, d: Decision, id: Id, stepId: Id, key: Id, now: int)
    requires Inv(s) && Inv(t) && Tried(s, t, d, id, stepId, key) && id in s.operations
    requires !IsTerminal(s.operations[id].verdict.status)
    ensures forall k :: k != key && Locked(s, k, now) ==> Locked(t, k, now)
  {
    hide Keyed, OneChild, Quarantined, ParentsAgree, DispatchesConsistent, LogsNumbered, DispatchesLogged, PathsLegal;
    forall k | k != key && Locked(s, k, now) ensures Locked(t, k, now) {
      assert k in s.locks - {key};
      assert k in t.locks - {key} && (t.locks - {key})[k] == (s.locks - {key})[k];
    }
  }

  // ---------------------------------------------------------------- one candidate

  datatype Attempt = Skipped | Recovered | Unrecovered | Aborted(error: MutationError)

  /** Some step was the operation's only one, unfinished in `s` and finished in `t`. */
  ghost predicate SettledStep(s: State, t: State, id: Id) {
    exists st :: StepsOf(s, id) == {st} && st in s.steps && st in t.steps
                 && !IsTerminal(s.steps[st].verdict.status) && IsTerminal(t.steps[st].verdict.status)
  }

  /** Finished, or its key is still locked. */
  ghost predicate Handled(s: State, t: State, id: Id, now: int) {
    id in s.operations && |StepsOf(s, id)| == 1 ==>
      id in t.operations
      && (IsTerminal(t.operations[id].verdict.status) || Locked(t, s.operations[id].plan.operationKey, now))
  }

  ghost predicate AttemptFits(s: State, t: State, a: Attempt, id: Id, now: int) {
    && OthersKept(s, t, id) && LocksKept(s, t, now)
    && (a.Recovered? ==> SettledStep(s, t, id))
    && (!a.Recovered? ==> t.operations == s.operations && t.steps == s.steps)
    && (if a.Aborted? then a.error == AuditPersistenceFailed else Handled(s, t, id, now))
  }

  lemma FinishedStepFinishesParent(s: State, id: Id, st: Step)
    requires Inv(s) && id in s.operations && st.id in s.steps && s.steps[st.id] == st && st.parentId == id
    ensures IsTerminal(st.verdict.status) <==> IsTerminal(s.operations[id].verdict.status)
  {
    hide OneChild, LocksCurrent, Quarantined, DispatchesConsistent, LogsNumbered, DispatchesLogged, PathsLegal;
  }

  lemma SkippedFits(s: State, id: Id, now: int)
    requires id in s.operations
    requires |StepsOf(s, id)| == 1 ==>
               IsTerminal(s.operations[id].verdict.status) || Locked(s, s.operations[id].plan.operationKey, now)
    ensures AttemptFits(s, s, Skipped, id, now)
  {
    hide StepsOf;
  }

  lemma GrantedFits(s: State, l: State, t: State, d: Decision, id: Id, stepId: Id, lease: Lease, now: int)
    requires l.operations == s.operations && l.steps == s.steps && LocksKept(s, l, now) && !Locked(s, lease.operationKey, now)
    requires id in s.operations && s.operations[id].plan.operationKey == lease.operationKey
    requires lease.operationKey in l.locks && l.locks[lease.operationKey] == lease && lease.expiresAt > now
    requires Tried(l, t, d, id, stepId, lease.operationKey)
    requires forall k :: k != lease.operationKey && Locked(l, k, now) ==> Locked(t, k, now)
    requires stepId in s.steps && StepsOf(s, id) == {stepId} && !IsTerminal(s.steps[stepId].verdict.status)
    ensures d.reply == Done ==> AttemptFits(s, t, Recovered, id, now)
    ensures d == Refuse(IllegalTransition) ==> AttemptFits(s, t, Unrecovered, id, now)
    ensures d == Refuse(AuditPersistenceFailed) ==> AttemptFits(s, t, Aborted(AuditPersistenceFailed), id, now)
  {
    hide StepsOf;
    assert OthersKept(s, t, id);
    forall k | Locked(s, k, now) ensures Locked(t, k, now) { assert Locked(l, k, now); }
    if d.reply == Done {
      assert SettledStep(s, t, id);
    } else {
      assert Locked(t, lease.operationKey, now);
    }
  }

  lemma TriedReplies(s: State, t: State, d: Decision, id: Id, stepId: Id, key: Id)
    requires Tried(s, t, d, id, stepId, key)
    ensures d.reply == Done || d == Refuse(IllegalTransition) || d == Refuse(AuditPersistenceFailed)
  {
  }

  lemma OnlyStep(s: State, id: Id, st: Step, children: seq<Step>)
    requires Keyed(s) && children == [st]
    requires exists k :: k in s.steps && s.steps[k].parentId == id && children == [s.steps[k]]
    requires forall k :: k in s.steps && s.steps[k].parentId == id ==> children == [s.steps[k]]
    requires SingleChildren(s.steps)
    ensures st.id in s.steps && s.steps[st.id] == st && st.parentId == id && StepsOf(s, id) == {st.id}
  {
    var k :| k in s.steps && s.steps[k].parentId == id && children == [s.steps[k]];
    assert k == st.id;
  }

  lemma SameSteps(s: State, t: State, id: Id)
    requires t.steps == s.steps
    ensures StepsOf(t, id) == StepsOf(s, id)
  {
  }

  // ---------------------------------------------------------------- one turn, among other clients

  /** What other clients ask for before a candidate is looked at, before its lease is asked for, and before it is recovered. */
  datatype Gap = Gap(beforeLook: seq<Request>, afterLook: seq<Request>, afterLease: seq<Request>)

  const Quiet := Gap([], [], [])

  /** One candidate's turn: the states in which the pass looks, asks for the lease, tries to recover, and ends. */
  datatype Turn = Turn(look: State, asked: State, lease: Option<Lease>, tried: State, end: State, attempt: Attempt)

  ghost predicate OneUnfinished(s: State, id: Id) {
    exists st :: StepsOf(s, id) == {st} && st in s.steps && !IsTerminal(s.steps[st].verdict.status)
  }

  predicate Finished(s: State, id: Id) {
    id in s.operations && IsTerminal(s.operations[id].verdict.status)
  }

  /** The lease is still the one that holds the key. */
  predicate StillOwns(s: State, id: Id, lease: Lease, now: int) {
    id in s.operations && Owns(s, s.operations[id], lease.operationKey, lease.token, now, true)
  }

  ghost predicate VerifyingUndispatched(s: State, id: Id) {
    exists st :: st in s.steps && s.steps[st].parentId == id && s.steps[st].verdict.status == Verifying && s.steps[st].dispatch.None?
  }

  /** The lease asked for in `asked` was granted, and `tried` is what others then made of the state. */
  ghost predicate Leased(turn: Turn, gap: Gap, id: Id, key: Id, now: int, expiresAt: int) {
    var d := DecideAcquireRecovery(turn.asked, key, id, now, expiresAt);
    && turn.lease.Some? && d.reply == Granted(turn.lease.value)
    && turn.tried == AllServed(Commit(turn.asked, d.effect), gap.afterLease)
  }

  /** What each outcome of a turn says about the state in which it was decided. */
  ghost predicate TurnFits(turn: Turn, gap: Gap, id: Id, key: Id, now: int, expiresAt: int, fault: bool) {
    && turn.asked == (if OneUnfinished(turn.look, id) then AllServed(turn.look, gap.afterLook) else turn.look)
    && (turn.attempt == Skipped <==> !OneUnfinished(turn.look, id) || Finished(turn.asked, id) || Locked(turn.asked, key, now))
    && match turn.attempt
       case Skipped => turn.end == turn.asked
       case Recovered =>
         Leased(turn, gap, id, key, now, expiresAt) && StillOwns(turn.tried, id, turn.lease.value, now) && Finished(turn.end, id)
       case Unrecovered =>
         && Leased(turn, gap, id, key, now, expiresAt) && turn.end == turn.tried
         && (StillOwns(turn.tried, id, turn.lease.value, now) ==> VerifyingUndispatched(turn.tried, id))
       case Aborted(error) =>
         && Leased(turn, gap, id, key, now, expiresAt) && turn.end == turn.tried
         && fault && error == AuditPersistenceFailed && StillOwns(turn.tried, id, turn.lease.value, now)
  }

  /** The operation is finished; or nothing changed, because the lease was lost, the step is verifying undispatched, or the audit write failed. */
  ghost predicate Answers(s: State, t: State, reply: Reply, id: Id, lease: Lease, now: int, fault: bool) {
    match AttemptOf(reply)
    case Recovered => reply == Done && StillOwns(s, id, lease, now) && Finished(t, id)
    case Unrecovered => t == s && (StillOwns(s, id, lease, now) ==> VerifyingUndispatched(s, id))
    case Aborted(error) => t == s && fault && error == AuditPersistenceFailed && StillOwns(s, id, lease, now)
    case _ => false
  }

  /** What `recoverStepAndParent` answers, whoever holds the key by now. */
  lemma StepAnswered(s: State, id: Id, stepId: Id, lease: Lease, now: int, fault: bool)
    requires Inv(s) && HasStep(s, id, stepId)
    ensures var d := DecideRecoverStep(s, id, stepId, lease, now, fault);
            var t := Commit(s, d.effect);
            Inv(t) && Evolves(s, t) && Answers(s, t, d.reply, id, lease, now, fault)
  {
    var c := RecoverStep(id, stepId, lease, now);
    hide Keyed, OneChild, LocksCurrent, Quarantined, ParentsAgree, DispatchesConsistent, LogsNumbered, DispatchesLogged, PathsLegal,
         Commit, Evolves, DecideRecoverStep, Answers, StillOwns;
    CallKeepsInv(s, c, fault);
    CallEvolves(s, c, fault);
    CommitNothing(s);
    if !StillOwns(s, id, lease, now) {
      NotOwned(s, id, stepId, lease, now, fault);
    } else if IsTerminal(s.steps[stepId].verdict.status) {
      StepKeyed(s, stepId);
      FinishedStepFinishesParent(s, id, s.steps[stepId]);
      AlreadyFinished(s, id, stepId, lease, now, fault);
    } else {
      UnfinishedAnswered(s, id, stepId, lease, now, fault);
    }
  }

  lemma NotOwned(s: State, id: Id, stepId: Id, lease: Lease, now: int, fault: bool)
    requires HasStep(s, id, stepId) && !StillOwns(s, id, lease, now)
    ensures var d := DecideRecoverStep(s, id, stepId, lease, now, fault);
            d == Refuse(StaleOwnership) && Answers(s, s, d.reply, id, lease, now, fault)
  {
  }

  lemma AlreadyFinished(s: State, id: Id, stepId: Id, lease: Lease, now: int, fault: bool)
    requires HasStep(s, id, stepId) && StillOwns(s, id, lease, now) && IsTerminal(s.steps[stepId].verdict.status) && Finished(s, id)
    ensures var d := DecideRecoverStep(s, id, stepId, lease, now, fault);
            d == Decision(Done, NoEffect) && Answers(s, s, d.reply, id, lease, now, fault)
  {
  }

  lemma UnfinishedAnswered(s: State, id: Id, stepId: Id, lease: Lease, now: int, fault: bool)
    requires Inv(s) && HasStep(s, id, stepId) && StillOwns(s, id, lease, now) && !IsTerminal(s.steps[stepId].verdict.status)
    ensures var d := DecideRecoverStep(s, id, stepId, lease, now, fault);
            Answers(s, Commit(s, d.effect), d.reply, id, lease, now, fault)
  {
    hide Keyed, OneChild, LocksCurrent, Quarantined, ParentsAgree, DispatchesConsistent, LogsNumbered, DispatchesLogged, PathsLegal,
         Commit, DecideRecoverStep, VerifyingUndispatched;
    CommitNothing(s);
    RecoveryShape(s, id, stepId, lease, now, fault);
    RecoveryRefusal(s, id, stepId, lease, now, fault);
    var d := DecideRecoverStep(s, id, stepId, lease, now, fault);
    if d.reply == Done { RecoveryFinishes(s, d.effect, id, stepId, lease.operationKey); }
  }

  lemma RecoveryRefusal(s: State, id: Id, stepId: Id, lease: Lease, now: int, fault: bool)
    requires Inv(s) && HasStep(s, id, stepId) && StillOwns(s, id, lease, now) && !IsTerminal(s.steps[stepId].verdict.status)
    ensures var d := DecideRecoverStep(s, id, stepId, lease, now, fault);
            && (d == Refuse(IllegalTransition) ==> VerifyingUndispatched(s, id))
            && (d == Refuse(AuditPersistenceFailed) ==> fault)
  {
    hide Keyed, OneChild, LocksCurrent, Quarantined, ParentsAgree, DispatchesConsistent, LogsNumbered, DispatchesLogged, PathsLegal;
    RecoveryRefusesOnly(s, id, stepId, lease, now);
    hide ChildThenParent, UpdateEffect;
  }

  lemma RecoveryFinishes(s: State, e: Effect, id: Id, stepId: Id, key: Id)
    requires Recovers(s, e, id, stepId, key)
    ensures Finished(Commit(s, e), id)
  {
  }

  /** A step that is there stays there, with its parent. */
  lemma StepStays(s: State, t: State, id: Id, stepId: Id)
    requires Evolves(s, t) && HasStep(s, id, stepId)
    ensures HasStep(t, id, stepId)
  {
  }

  lemma FinishedStays(s: State, t: State, id: Id)
    requires Evolves(s, t) && Finished(s, id)
    ensures Finished(t, id)
  {
  }

  lemma TurnSkipped(turn: Turn, gap: Gap, id: Id, key: Id, now: int, expiresAt: int, fault: bool)
    requires turn.attempt == Skipped && turn.end == turn.asked
    requires turn.asked == if OneUnfinished(turn.look, id) then AllServed(turn.look, gap.afterLook) else turn.look
    requires !OneUnfinished(turn.look, id) || Finished(turn.asked, id) || Locked(turn.asked, key, now)
    ensures TurnFits(turn, gap, id, key, now, expiresAt, fault)
  {
  }

  lemma UnfinishedStep(s: State, id: Id, stepId: Id)
    requires StepsOf(s, id) == {stepId} && stepId in s.steps
    ensures OneUnfinished(s, id) <==> !IsTerminal(s.steps[stepId].verdict.status)
  {
    forall st | StepsOf(s, id) == {st} ensures st == stepId { assert st in {stepId}; }
  }

  lemma NotOneStep(s: State, id: Id)
    requires |StepsOf(s, id)| != 1
    ensures !OneUnfinished(s, id)
  {
    hide StepsOf;
  }

  /** The quiet end of a turn in which the lease was granted. */
  lemma QuietAttempt(s: State, l: State, id: Id, stepId: Id, lease: Lease, now: int, fault: bool)
    requires Inv(s) && Inv(l) && l.operations == s.operations && l.steps == s.steps && LocksKept(s, l, now)
    requires !Locked(s, lease.operationKey, now) && HasStep(s, id, stepId) && StepsOf(s, id) == {stepId}
    requires !IsTerminal(s.steps[stepId].verdict.status)
    requires s.operations[id].plan.operationKey == lease.operationKey && lease.owner == id
    requires lease.operationKey in l.locks && l.locks[lease.operationKey] == lease && lease.expiresAt > now
    ensures var d := DecideRecoverStep(l, id, stepId, lease, now, fault);
            AttemptFits(s, Commit(l, d.effect), AttemptOf(d.reply), id, now)
  {
    hide Keyed, OneChild, LocksCurrent, Quarantined, ParentsAgree, DispatchesConsistent, LogsNumbered, DispatchesLogged,
         PathsLegal, AttemptFits, Tried, Commit, DecideRecoverStep, LocksKept, Locked, StepsOf;
    var d := DecideRecoverStep(l, id, stepId, lease, now, fault);
    StepKeyed(s, stepId);
    FinishedStepFinishesParent(s, id, s.steps[stepId]);
    SameSteps(s, l, id);
    OperationKeyed(s, id);
    StepTried(l, id, stepId, lease, now, fault);
    TriedKeepsLocks(l, Commit(l, d.effect), d, id, stepId, lease.operationKey, now);
    GrantedFits(s, l, Commit(l, d.effect), d, id, stepId, lease, now);
    TriedReplies(l, Commit(l, d.effect), d, id, stepId, lease.operationKey);
  }

  lemma StepKeyed(s: State, stepId: Id)
    requires Keyed(s) && stepId in s.steps
    ensures s.steps[stepId].id == stepId
  {
  }

  /** How the pass takes an answer: two errors are passed over, any other ends it. */
  function AttemptOf(reply: Reply): Attempt {
    match reply
    case Failure(error) => if error == IllegalTransition || error == StaleOwnership then Unrecovered else Aborted(error)
    case _ => Recovered
  }

  method TryCandidate(repo: MutationRepository, candidate: Operation, gap: Gap, now: int, expiresAt: int, fault: bool)
    returns (a: Attempt, ghost turn: Turn)
    requires repo.Valid() && Inv(repo.View()) && now < expiresAt
    requires candidate.plan.operationId in repo.operations && repo.operations[candidate.plan.operationId].plan == candidate.plan
    modifies repo
    ensures repo.Valid() && Inv(repo.View()) && Evolves(old(repo.View()), repo.View())
    ensures turn.look == old(repo.View()) && turn.end == repo.View() && turn.attempt == a
    ensures TurnFits(turn, gap, candidate.plan.operationId, candidate.plan.operationKey, now, expiresAt, fault)
    ensures gap.afterLook == [] && gap.afterLease == [] ==> AttemptFits(old(repo.View()), repo.View(), a, candidate.plan.operationId, now)
  {
    hide Keyed, OneChild, LocksCurrent, Quarantined, ParentsAgree, DispatchesConsistent, LogsNumbered, DispatchesLogged,
         PathsLegal, AttemptFits, Tried, Commit, DecideAcquireRecovery, DecideRecoverStep, LocksKept, Locked, StepsOf, Evolves,
         TurnFits, OneUnfinished, Finished;
    var id := candidate.plan.operationId;
    ghost var s := repo.View();
    SameEvolves(s);
    SingleFromStructure(s);
    var children := repo.StepsFor(id);
    CountChildren(s, id, children);
    if |children| != 1 {
      turn := Turn(s, s, None, s, s, Skipped);
      NotOneStep(s, id);
      TurnSkipped(turn, gap, id, candidate.plan.operationKey, now, expiresAt, fault);
      SkippedFits(s, id, now);
      return Skipped, turn;
    }
    var st := children[0];
    OnlyStep(s, id, st, children);
    UnfinishedStep(s, id, st.id);
    FinishedStepFinishesParent(s, id, st);
    if IsTerminal(st.verdict.status) {
      turn := Turn(s, s, None, s, s, Skipped);
      TurnSkipped(turn, gap, id, candidate.plan.operationKey, now, expiresAt, fault);
      SkippedFits(s, id, now);
      return Skipped, turn;
    }
    a, turn := TryUnfinished(repo, candidate, st.id, gap, now, expiresAt, fault);
  }

  /** The recovery itself, after the others have acted under the recovery lease. */
  method TryLeased(repo: MutationRepository, id: Id, stepId: Id, lease: Lease, others: seq<Request>, now: int, fault: bool)
    returns (reply: Reply, ghost tried: State)
    requires repo.Valid() && Inv(repo.View()) && HasStep(repo.View(), id, stepId)
    modifies repo
    ensures repo.Valid() && Inv(repo.View()) && Evolves(old(repo.View()), repo.View())
    ensures tried == AllServed(old(repo.View()), others)
    ensures var d := DecideRecoverStep(tried, id, stepId, lease, now, fault);
            reply == d.reply && repo.View() == Commit(tried, d.effect) && Answers(tried, repo.View(), reply, id, lease, now, fault)
  {
    hide Inv, Structural, Commit, DecideRecoverStep, Evolves, Answers, AllServed;
    ghost var l := repo.View();
    ServeAll(repo, others);
    tried := repo.View();
    StepStays(l, tried, id, stepId);
    StepAnswered(tried, id, stepId, lease, now, fault);
    repo.failNextAudit := fault;
    reply := repo.RecoverStepAndParent(id, stepId, lease, now, false);
    EvolvesTransitive(l, tried, repo.View());
  }

  /** The rest of a turn, for a candidate with one unfinished step. */
  method TryUnfinished(repo: MutationRepository, candidate: Operation, stepId: Id, gap: Gap, now: int, expiresAt: int, fault: bool)
    returns (a: Attempt, ghost turn: Turn)
    requires repo.Valid() && Inv(repo.View()) && now < expiresAt
    requires candidate.plan.operationId in repo.operations && repo.operations[candidate.plan.operationId].plan == candidate.plan
    requires HasStep(repo.View(), candidate.plan.operationId, stepId) && StepsOf(repo.View(), candidate.plan.operationId) == {stepId}
    requires !IsTerminal(repo.steps[stepId].verdict.status)
    modifies repo
    ensures repo.Valid() && Inv(repo.View()) && Evolves(old(repo.View()), repo.View())
    ensures turn.look == old(repo.View()) && turn.end == repo.View() && turn.attempt == a
    ensures TurnFits(turn, gap, candidate.plan.operationId, candidate.plan.operationKey, now, expiresAt, fault)
    ensures gap.afterLook == [] && gap.afterLease == [] ==> AttemptFits(old(repo.View()), repo.View(), a, candidate.plan.operationId, now)
  {
    hide Inv, Structural, AttemptFits, Commit, DecideAcquireRecovery, DecideRecoverStep, LocksKept, Locked, StepsOf, Evolves,
         OneUnfinished, VerifyingUndispatched, TurnFits, StillOwns, AllServed, Answers;
    var id, key := candidate.plan.operationId, candidate.plan.operationKey;
    ghost var s := repo.View();
    UnfinishedStep(s, id, stepId);
    NoneServed(s);
    ServeAll(repo, gap.afterLook);
    ghost var asked := repo.View();
    StepStays(s, asked, id, stepId);
    PlanStays(s, asked, id);
    LeaseTaken(asked, key, id, now, expiresAt);
    var leased := repo.AcquireRecoveryLease(key, id, now, expiresAt);
    if !leased.Granted? {
      turn := Turn(s, asked, None, asked, asked, Skipped);
      TurnSkipped(turn, gap, id, key, now, expiresAt, fault);
      if gap.afterLook == [] { SkippedFits(s, id, now); }
      return Skipped, turn;
    }
    ghost var l := repo.View();
    NoneServed(l);
    EvolvesTransitive(s, asked, l);
    StepStays(s, l, id, stepId);
    if gap.afterLook == [] && gap.afterLease == [] { QuietAttempt(s, l, id, stepId, leased.lease, now, fault); }
    var reply;
    ghost var tried;
    reply, tried := TryLeased(repo, id, stepId, leased.lease, gap.afterLease, now, fault);
    EvolvesTransitive(s, l, repo.View());
    a := AttemptOf(reply);
    turn := Turn(s, asked, Some(leased.lease), tried, repo.View(), a);
    TurnTried(turn, reply, gap, id, key, now, expiresAt, fault);
  }

  lemma TurnTried(turn: Turn, reply: Reply, gap: Gap, id: Id, key: Id, now: int, expiresAt: int, fault: bool)
    requires turn.asked == AllServed(turn.look, gap.afterLook) && OneUnfinished(turn.look, id)
    requires !Finished(turn.asked, id) && !Locked(turn.asked, key, now)
    requires Leased(turn, gap, id, key, now, expiresAt) && turn.attempt == AttemptOf(reply)
    requires Answers(turn.tried, turn.end, reply, id, turn.lease.value, now, fault)
    ensures TurnFits(turn, gap, id, key, now, expiresAt, fault)
  {
    hide OneUnfinished, Finished, Locked, StillOwns, VerifyingUndispatched, Leased, AllServed;
  }

  lemma NoneServed(s: State)
    ensures AllServed(s, []) == s
  {
  }

  lemma PlanStays(s: State, t: State, id: Id)
    requires Evolves(s, t) && id in s.operations
    ensures id in t.operations && t.operations[id].plan == s.operations[id].plan
  {
  }

  // ---------------------------------------------------------------- the pass

  /** Those of the first `n` listed operations whose only step was unfinished in `s` and is finished in `t`. */
  ghost function Settled(s: State, t: State, listed: seq<Operation>, n: nat): set<nat>
    requires n <= |listed|
  {
    set i: nat | i < n && SettledStep(s, t, listed[i].plan.operationId)
  }

  /** Rows of operation `id` and of its steps are those of `s`. */
  ghost predicate Untouched(s: State, t: State, id: Id) {
    && (id in s.operations ==> id in t.operations && t.operations[id] == s.operations[id])
    && (forall k :: k in s.steps && s.steps[k].parentId == id ==> k in t.steps && t.steps[k] == s.steps[k])
  }

  /** The same rows, with the same plans and parents. */
  ghost predicate SameShape(s: State, t: State) {
    && t.operations.Keys == s.operations.Keys && t.steps.Keys == s.steps.Keys
    && (forall k :: k in s.steps ==> t.steps[k].parentId == s.steps[k].parentId)
    && (forall k :: k in s.operations ==> t.operations[k].plan == s.operations[k].plan)
  }

  /** The first `n` listed operations are handled and the later ones are untouched. */
  ghost predicate Passed(s: State, t: State, listed: seq<Operation>, n: nat, now: int)
    requires n <= |listed|
  {
    && SameShape(s, t)
    && (forall i :: 0 <= i < n ==> Handled(s, t, listed[i].plan.operationId, now))
    && (forall i :: n <= i < |listed| ==> Untouched(s, t, listed[i].plan.operationId))
  }

  ghost predicate Distinct(listed: seq<Operation>) {
    forall j, k :: 0 <= j < k < |listed| ==> listed[j].plan.operationId != listed[k].plan.operationId
  }

  lemma OtherStaysHandled(s: State, t: State, u: State, id: Id, tried: Id, now: int)
    requires OthersKept(t, u, tried) && LocksKept(t, u, now) && id != tried && Handled(s, t, id, now)
    ensures Handled(s, u, id, now)
  {
    hide StepsOf, Locked;
  }

  lemma OtherStaysUntouched(s: State, t: State, u: State, id: Id, tried: Id)
    requires OthersKept(t, u, tried) && id != tried && SameShape(s, t) && Untouched(s, t, id)
    ensures Untouched(s, u, id)
  {
  }

  /** An operation that is not the one tried keeps its steps, so it is settled after the attempt iff it was before. */
  lemma OtherStaysSettled(s: State, t: State, u: State, id: Id, tried: Id)
    requires OthersKept(t, u, tried) && id != tried && SameShape(s, t)
    ensures SettledStep(s, u, id) <==> SettledStep(s, t, id)
  {
    forall st | StepsOf(s, id) == {st} ensures st in s.steps && s.steps[st].parentId == id { assert st in StepsOf(s, id); }
    hide StepsOf;
  }

  lemma TriedOne(s: State, t: State, u: State, a: Attempt, id: Id, now: int)
    requires AttemptFits(t, u, a, id, now) && Untouched(s, t, id) && SameShape(s, t)
    ensures SettledStep(s, u, id) <==> a.Recovered?
    ensures !a.Aborted? ==> Handled(s, u, id, now)
  {
    hide Locked, LocksKept;
    assert StepsOf(s, id) == StepsOf(t, id);
    forall st | StepsOf(s, id) == {st} ensures st in s.steps && t.steps[st] == s.steps[st] { assert st in StepsOf(s, id); }
    hide StepsOf;
  }

  lemma AttemptParts(s: State, t: State, a: Attempt, id: Id, now: int)
    requires AttemptFits(s, t, a, id, now)
    ensures OthersKept(s, t, id) && LocksKept(s, t, now)
  {
  }

  lemma SameShapeKept(s: State, t: State, u: State, tried: Id)
    requires SameShape(s, t) && OthersKept(t, u, tried)
    ensures SameShape(s, u)
  {
  }

  lemma OthersStayHandled(s: State, t: State, u: State, tried: Id, listed: seq<Operation>, n: nat, now: int)
    requires n < |listed| && Distinct(listed) && listed[n].plan.operationId == tried
    requires OthersKept(t, u, tried) && LocksKept(t, u, now) && Passed(s, t, listed, n, now)
    ensures forall i :: 0 <= i < n ==> Handled(s, u, listed[i].plan.operationId, now)
    ensures forall i :: n < i < |listed| ==> Untouched(s, u, listed[i].plan.operationId)
  {
    hide LocksKept, Handled, Untouched, SameShape, OthersKept;
    forall i | 0 <= i < n ensures Handled(s, u, listed[i].plan.operationId, now) {
      OtherStaysHandled(s, t, u, listed[i].plan.operationId, tried, now);
    }
    forall i | n < i < |listed| ensures Untouched(s, u, listed[i].plan.operationId) {
      OtherStaysUntouched(s, t, u, listed[i].plan.operationId, tried);
    }
  }

  lemma PassedOne(s: State, t: State, u: State, a: Attempt, listed: seq<Operation>, n: nat, now: int)
    requires n < |listed| && Distinct(listed) && Passed(s, t, listed, n, now) && !a.Aborted?
    requires AttemptFits(t, u, a, listed[n].plan.operationId, now)
    ensures Passed(s, u, listed, n + 1, now)
  {
    hide SettledStep, LocksKept, Handled, Untouched, SameShape, OthersKept, AttemptFits, Distinct;
    var tried := listed[n].plan.operationId;
    TriedOne(s, t, u, a, tried, now);
    AttemptParts(t, u, a, tried, now);
    SameShapeKept(s, t, u, tried);
    OthersStayHandled(s, t, u, tried, listed, n, now);
  }

  lemma OthersStaySettled(s: State, t: State, u: State, tried: Id, listed: seq<Operation>, n: nat)
    requires n < |listed| && Distinct(listed) && listed[n].plan.operationId == tried && OthersKept(t, u, tried) && SameShape(s, t)
    ensures Settled(s, u, listed, n) == Settled(s, t, listed, n)
  {
    hide SettledStep, SameShape, OthersKept;
    forall i | 0 <= i < n
      ensures SettledStep(s, u, listed[i].plan.operationId) <==> SettledStep(s, t, listed[i].plan.operationId)
    {
      OtherStaysSettled(s, t, u, listed[i].plan.operationId, tried);
    }
  }

  lemma CountedOne(s: State, u: State, listed: seq<Operation>, n: nat)
    requires n < |listed|
    ensures |Settled(s, u, listed, n + 1)| ==
            |Settled(s, u, listed, n)| + if SettledStep(s, u, listed[n].plan.operationId) then 1 else 0
  {
    hide SettledStep;
    OneMore(Settled(s, u, listed, n), Settled(s, u, listed, n + 1), n, SettledStep(s, u, listed[n].plan.operationId));
  }

  lemma OneMore(a: set<nat>, b: set<nat>, n: nat, counted: bool)
    requires n !in a && forall i :: i in b <==> i in a || (counted && i == n)
    ensures |b| == |a| + if counted then 1 else 0
  {
    assert b == if counted then a + {n} else a;
  }

  lemma SettledOne(s: State, t: State, u: State, a: Attempt, listed: seq<Operation>, n: nat, now: int)
    requires n < |listed| && Distinct(listed) && Passed(s, t, listed, n, now)
    requires AttemptFits(t, u, a, listed[n].plan.operationId, now)
    ensures |Settled(s, u, listed, n + 1)| == |Settled(s, t, listed, n)| + if a.Recovered? then 1 else 0
  {
    hide SettledStep, LocksKept, Handled, Untouched, SameShape, OthersKept, AttemptFits, Settled, Distinct;
    var tried := listed[n].plan.operationId;
    TriedOne(s, t, u, a, tried, now);
    AttemptParts(t, u, a, tried, now);
    OthersStaySettled(s, t, u, tried, listed, n);
    CountedOne(s, u, listed, n);
  }

  // ---------------------------------------------------------------- a pass among other clients

  /** How many turns recovered their candidate. */
  ghost function Recoveries(turns: seq<Turn>): nat {
    if turns == [] then 0
    else Recoveries(turns[..|turns| - 1]) + if turns[|turns| - 1].attempt.Recovered? then 1 else 0
  }

  /** The state after these turns. */
  ghost function After(s: State, turns: seq<Turn>): State {
    if turns == [] then s else turns[|turns| - 1].end
  }

  /** The turns follow one another, with other clients in between, and each fits its candidate. */
  ghost predicate Turns(s: State, turns: seq<Turn>, listed: seq<Operation>, gaps: nat -> Gap, faults: nat -> bool, now: int, expiresAt: int) {
    && |turns| <= |listed|
    && forall n :: 0 <= n < |turns| ==>
         && turns[n].look == AllServed(After(s, turns[..n]), gaps(n).beforeLook)
         && TurnFits(turns[n], gaps(n), listed[n].plan.operationId, listed[n].plan.operationKey, now, expiresAt, faults(n))
  }

  /** Every turn taken left its candidate finished for good, or says why it could not. */
  ghost predicate Accounted(t: State, turns: seq<Turn>, listed: seq<Operation>, now: int) {
    && |turns| <= |listed|
    && forall n :: 0 <= n < |turns| ==> AccountedOne(t, turns[n], listed[n].plan.operationId, listed[n].plan.operationKey, now)
  }

  ghost predicate AccountedOne(t: State, turn: Turn, id: Id, key: Id, now: int) {
    || Finished(t, id)
    || !OneUnfinished(turn.look, id)
    || Locked(turn.asked, key, now)
    || (turn.lease.Some? && !StillOwns(turn.tried, id, turn.lease.value, now))
    || (turn.attempt == Unrecovered && VerifyingUndispatched(turn.tried, id))
    || turn.attempt.Aborted?
  }

  lemma OneTurnMore(s: State, turns: seq<Turn>, turn: Turn, listed: seq<Operation>, gaps: nat -> Gap, faults: nat -> bool, now: int, expiresAt: int)
    requires Turns(s, turns, listed, gaps, faults, now, expiresAt) && |turns| < |listed|
    requires turn.look == AllServed(After(s, turns), gaps(|turns|).beforeLook)
    requires var op := listed[|turns|];
             TurnFits(turn, gaps(|turns|), op.plan.operationId, op.plan.operationKey, now, expiresAt, faults(|turns|))
    ensures Turns(s, turns + [turn], listed, gaps, faults, now, expiresAt)
    ensures Recoveries(turns + [turn]) == Recoveries(turns) + if turn.attempt.Recovered? then 1 else 0
  {
    hide TurnFits, After, AllServed;
    var more := turns + [turn];
    assert more[..|turns|] == turns;
    forall n | 0 <= n < |more|
      ensures more[n].look == AllServed(After(s, more[..n]), gaps(n).beforeLook)
      ensures TurnFits(more[n], gaps(n), listed[n].plan.operationId, listed[n].plan.operationKey, now, expiresAt, faults(n))
    {
      assert n < |turns| ==> more[..n] == turns[..n];
    }
  }

  /** One turn more: what was accounted for stays so, whatever the others do meanwhile. */
  lemma AccountedMore(t: State, u: State, turns: seq<Turn>, turn: Turn, listed: seq<Operation>, now: int)
    requires Accounted(t, turns, listed, now) && |turns| < |listed| && Evolves(t, u)
    requires AccountedOne(u, turn, listed[|turns|].plan.operationId, listed[|turns|].plan.operationKey, now)
    ensures Accounted(u, turns + [turn], listed, now)
  {
    hide Evolves, OneUnfinished, Locked, VerifyingUndispatched, Finished, StillOwns;
    forall n | 0 <= n < |turns| ensures AccountedOne(u, turns[n], listed[n].plan.operationId, listed[n].plan.operationKey, now) {
      if Finished(t, listed[n].plan.operationId) { FinishedStays(t, u, listed[n].plan.operationId); }
    }
  }

  /** Nobody else acts during the pass. */
  ghost predicate Alone(gaps: nat -> Gap) {
    forall n: nat :: gaps(n) == Quiet
  }

  /** `t` is what the turns left, and every candidate that had its turn is accounted for. */
  ghost predicate Followed(
    s: State, t: State, turns: seq<Turn>, listed: seq<Operation>, gaps: nat -> Gap, faults: nat -> bool, now: int, expiresAt: int)
  {
    Evolves(s, t) && Turns(s, turns, listed, gaps, faults, now, expiresAt) && t == After(s, turns) && Accounted(t, turns, listed, now)
  }

  /** How far a pass has come: the turns taken, none of them aborted, and what they left. */
  ghost predicate Progress(
    s: State, t: State, turns: seq<Turn>, listed: seq<Operation>, gaps: nat -> Gap, faults: nat -> bool, now: int, expiresAt: int, recovered: nat)
  {
    && Followed(s, t, turns, listed, gaps, faults, now, expiresAt)
    && (forall n :: 0 <= n < |turns| ==> !turns[n].attempt.Aborted?) && recovered == Recoveries(turns)
    && (Alone(gaps) ==> Passed(s, t, listed, |turns|, now) && recovered == |Settled(s, t, listed, |turns|)|)
  }

  /** A pass that stopped: the last turn was aborted by a failed audit write, and everything before it is as in `Progress`. */
  ghost predicate Stopped(
    s: State, t: State, turns: seq<Turn>, listed: seq<Operation>, gaps: nat -> Gap, faults: nat -> bool, now: int, expiresAt: int)
  {
    && Followed(s, t, turns, listed, gaps, faults, now, expiresAt)
    && turns != [] && turns[|turns| - 1].attempt == Aborted(AuditPersistenceFailed)
    && (forall n :: 0 <= n < |turns| - 1 ==> !turns[n].attempt.Aborted?)
    && (Alone(gaps) ==> Passed(s, t, listed, |turns| - 1, now))
  }

  lemma PlanKept(s: State, t: State, op: Operation)
    requires Evolves(s, t) && op.plan.operationId in s.operations && s.operations[op.plan.operationId].plan == op.plan
    ensures op.plan.operationId in t.operations && t.operations[op.plan.operationId].plan == op.plan
  {
  }

  /** One candidate, after the others have acted. */
  method TakeTurn(repo: MutationRepository, candidate: Operation, gap: Gap, now: int, expiresAt: int, fault: bool)
    returns (a: Attempt, ghost turn: Turn)
    requires repo.Valid() && Inv(repo.View()) && now < expiresAt
    requires candidate.plan.operationId in repo.operations && repo.operations[candidate.plan.operationId].plan == candidate.plan
    modifies repo
    ensures repo.Valid() && Inv(repo.View()) && Evolves(old(repo.View()), repo.View())
    ensures turn.look == AllServed(old(repo.View()), gap.beforeLook) && turn.end == repo.View() && turn.attempt == a
    ensures TurnFits(turn, gap, candidate.plan.operationId, candidate.plan.operationKey, now, expiresAt, fault)
    ensures gap == Quiet ==> AttemptFits(old(repo.View()), repo.View(), a, candidate.plan.operationId, now)
  {
    hide Inv, Structural, AttemptFits, TurnFits, Evolves, AllServed;
    ghost var t := repo.View();
    NoneServed(t);
    ServeAll(repo, gap.beforeLook);
    ghost var look := repo.View();
    PlanKept(t, look, candidate);
    a, turn := TryCandidate(repo, candidate, gap, now, expiresAt, fault);
    EvolvesTransitive(t, look, repo.View());
  }

  /** One turn more. */
  lemma ProgressOne(
    s: State, t: State, u: State, turns: seq<Turn>, turn: Turn, listed: seq<Operation>, gaps: nat -> Gap, faults: nat -> bool,
    now: int, expiresAt: int, recovered: nat)
    requires Progress(s, t, turns, listed, gaps, faults, now, expiresAt, recovered) && |turns| < |listed| && Distinct(listed)
    requires Evolves(t, u) && turn.end == u && turn.look == AllServed(t, gaps(|turns|).beforeLook)
    requires var op := listed[|turns|];
             && TurnFits(turn, gaps(|turns|), op.plan.operationId, op.plan.operationKey, now, expiresAt, faults(|turns|))
             && (gaps(|turns|) == Quiet ==> AttemptFits(t, u, turn.attempt, op.plan.operationId, now))
    ensures if turn.attempt.Aborted? then Stopped(s, u, turns + [turn], listed, gaps, faults, now, expiresAt)
            else Progress(s, u, turns + [turn], listed, gaps, faults, now, expiresAt, recovered + if turn.attempt.Recovered? then 1 else 0)
  {
    hide TurnFits, Followed, Evolves, Passed, Settled, Recoveries, AttemptFits, Distinct, AllServed;
    FollowedOne(s, t, u, turns, turn, listed, gaps, faults, now, expiresAt);
    if Alone(gaps) {
      assert gaps(|turns|) == Quiet;
      AloneTurn(s, t, u, turn.attempt, listed, |turns|, now);
    }
  }

  lemma FollowedOne(
    s: State, t: State, u: State, turns: seq<Turn>, turn: Turn, listed: seq<Operation>, gaps: nat -> Gap, faults: nat -> bool,
    now: int, expiresAt: int)
    requires Followed(s, t, turns, listed, gaps, faults, now, expiresAt) && |turns| < |listed|
    requires Evolves(t, u) && turn.end == u && turn.look == AllServed(t, gaps(|turns|).beforeLook)
    requires var op := listed[|turns|];
             TurnFits(turn, gaps(|turns|), op.plan.operationId, op.plan.operationKey, now, expiresAt, faults(|turns|))
    ensures Followed(s, u, turns + [turn], listed, gaps, faults, now, expiresAt)
    ensures turn.attempt.Aborted? ==> turn.attempt.error == AuditPersistenceFailed
    ensures Recoveries(turns + [turn]) == Recoveries(turns) + if turn.attempt.Recovered? then 1 else 0
  {
    hide TurnFits, Turns, Accounted, AccountedOne, Evolves, Recoveries, AllServed;
    var n, op := |turns|, listed[|turns|];
    EvolvesTransitive(s, t, u);
    OneTurnMore(s, turns, turn, listed, gaps, faults, now, expiresAt);
    TurnEnds(turn, gaps(n), op.plan.operationId, op.plan.operationKey, now, expiresAt, faults(n));
    AccountedMore(t, u, turns, turn, listed, now);
  }

  /**
   * The pass. Among other clients, each candidate is finished at the end or its turn tells why not;
   * alone, each candidate is finished or its key is locked, and the steps settled are counted.
   */
  method Recover(
    repo: MutationRepository, compare: (string, string) -> int, now: int, leaseMs: int, gaps: nat -> Gap, faults: nat -> bool)
    returns (r: Result<nat, MutationError>, ghost listed: seq<Operation>, ghost turns: seq<Turn>)
    requires repo.Valid() && Inv(repo.View()) && TotalOrder(compare) && leaseMs >= 1
    modifies repo
    ensures repo.Valid() && Inv(repo.View())
    ensures forall id :: Recoverable(old(repo.View()), id, now) ==> old(repo.operations[id]) in listed
    ensures forall op :: op in listed ==> Recoverable(old(repo.View()), op.plan.operationId, now)
    ensures Distinct(listed) && Ranked(compare, listed)
    ensures match r
            case Ok(count) =>
              |turns| == |listed| && Progress(old(repo.View()), repo.View(), turns, listed, gaps, faults, now, now + leaseMs, count)
            case Err(error) =>
              error == AuditPersistenceFailed && Stopped(old(repo.View()), repo.View(), turns, listed, gaps, faults, now, now + leaseMs)
  {
    hide Inv, Structural, TotalOrder, Ranked, Distinct, Progress, Stopped;
    var candidates := repo.ListRecoverable(compare, now);
    listed := candidates;
    RankedDistinct(compare, candidates);
    forall n | 0 <= n < |candidates| ensures Stored(repo.View(), candidates[n]) { assert candidates[n] in candidates; }
    r, turns := PassOver(repo, candidates, now, now + leaseMs, gaps, faults);
  }

  predicate Stored(s: State, op: Operation) {
    op.plan.operationId in s.operations && s.operations[op.plan.operationId] == op
  }

  /** The turns of the listed candidates, up to one that is aborted. */
  method PassOver(repo: MutationRepository, listed: seq<Operation>, now: int, expiresAt: int, gaps: nat -> Gap, faults: nat -> bool)
    returns (r: Result<nat, MutationError>, ghost turns: seq<Turn>)
    requires repo.Valid() && Inv(repo.View()) && now < expiresAt && Distinct(listed)
    requires forall n :: 0 <= n < |listed| ==> Stored(repo.View(), listed[n])
    modifies repo
    ensures repo.Valid() && Inv(repo.View())
    ensures match r
            case Ok(count) => |turns| == |listed| && Progress(old(repo.View()), repo.View(), turns, listed, gaps, faults, now, expiresAt, count)
            case Err(error) => error == AuditPersistenceFailed && Stopped(old(repo.View()), repo.View(), turns, listed, gaps, faults, now, expiresAt)
  {
    hide Inv, Structural, AttemptFits, TurnFits, Evolves, Distinct, AllServed, Progress, Stopped;
    ghost var s := repo.View();
    turns := [];
    var recovered := 0;
    PassStarts(s, listed, gaps, faults, now, expiresAt);
    for n := 0 to |listed|
      invariant repo.Valid() && Inv(repo.View()) && |turns| == n
      invariant Progress(s, repo.View(), turns, listed, gaps, faults, now, expiresAt, recovered)
    {
      ghost var t := repo.View();
      ListedKept(s, t, listed[n], turns, listed, gaps, faults, now, expiresAt, recovered);
      var a;
      ghost var turn;
      a, turn := TakeTurn(repo, listed[n], gaps(n), now, expiresAt, faults(n));
      ProgressOne(s, t, repo.View(), turns, turn, listed, gaps, faults, now, expiresAt, recovered);
      turns := turns + [turn];
      if a.Aborted? {
        StoppedBy(s, repo.View(), turns, listed, gaps, faults, now, expiresAt);
        return Err(a.error), turns;
      }
      if a.Recovered? { recovered := recovered + 1; }
    }
    r := Ok(recovered);
  }

  lemma RankedDistinct(compare: (string, string) -> int, listed: seq<Operation>)
    requires Ranked(compare, listed)
    ensures Distinct(listed)
  {
  }

  lemma ListedKept(
    s: State, t: State, op: Operation, turns: seq<Turn>, listed: seq<Operation>, gaps: nat -> Gap, faults: nat -> bool, now: int,
    expiresAt: int, recovered: nat)
    requires Progress(s, t, turns, listed, gaps, faults, now, expiresAt, recovered)
    requires Stored(s, op)
    ensures op.plan.operationId in t.operations && t.operations[op.plan.operationId].plan == op.plan
  {
    hide Turns, Accounted, Evolves, Passed, Settled, Recoveries;
    PlanKept(s, t, op);
  }

  lemma StoppedBy(s: State, t: State, turns: seq<Turn>, listed: seq<Operation>, gaps: nat -> Gap, faults: nat -> bool, now: int, expiresAt: int)
    requires Stopped(s, t, turns, listed, gaps, faults, now, expiresAt)
    ensures turns != [] && turns[|turns| - 1].attempt == Aborted(AuditPersistenceFailed)
  {
  }

  lemma TurnEnds(turn: Turn, gap: Gap, id: Id, key: Id, now: int, expiresAt: int, fault: bool)
    requires TurnFits(turn, gap, id, key, now, expiresAt, fault)
    ensures AccountedOne(turn.end, turn, id, key, now)
    ensures turn.attempt.Aborted? ==> turn.attempt.error == AuditPersistenceFailed
  {
    hide OneUnfinished, Locked, VerifyingUndispatched, Finished, StillOwns, Commit, DecideAcquireRecovery, AllServed;
  }

  lemma AloneTurn(s: State, t: State, u: State, a: Attempt, listed: seq<Operation>, n: nat, now: int)
    requires n < |listed| && Distinct(listed) && Passed(s, t, listed, n, now)
    requires AttemptFits(t, u, a, listed[n].plan.operationId, now)
    ensures Passed(s, u, listed, if a.Aborted? then n else n + 1, now)
    ensures |Settled(s, u, listed, n + 1)| == |Settled(s, t, listed, n)| + if a.Recovered? then 1 else 0
  {
    hide AttemptFits, Passed, Settled, Distinct;
    if a.Aborted? { AbortedChangesNothing(s, t, u, a, listed, n, now); } else { PassedOne(s, t, u, a, listed, n, now); }
    SettledOne(s, t, u, a, listed, n, now);
  }

  /** An aborted attempt leaves the rows as they were, and every locked key locked. */
  lemma AbortedChangesNothing(s: State, t: State, u: State, a: Attempt, listed: seq<Operation>, n: nat, now: int)
    requires n < |listed| && Distinct(listed) && Passed(s, t, listed, n, now) && a.Aborted?
    requires AttemptFits(t, u, a, listed[n].plan.operationId, now)
    ensures Passed(s, u, listed, n, now)
  {
    hide SettledStep, StepsOf, Locked, Distinct;
  }

  lemma PassStarts(s: State, listed: seq<Operation>, gaps: nat -> Gap, faults: nat -> bool, now: int, expiresAt: int)
    ensures Progress(s, s, [], listed, gaps, faults, now, expiresAt, 0)
  {
    hide Evolves;
    SameEvolves(s);
    assert Settled(s, s, listed, 0) == {};
  }
}
