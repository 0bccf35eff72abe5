/**
 * What every reachable state of the durable mutation protocol satisfies, proved
 * once per kind of committed effect rather than once per call.
 */
module MutationInvariants {
  import opened Basics
  import opened ActionStatuses
  import opened Aggregation
  import opened MutationModel

  // ---------------------------------------------------------------- the tables fit together

  ghost predicate Keyed(s: State) {
    && (forall id :: id in s.operations ==> s.operations[id].plan.operationId == id)
    && (forall id :: id in s.steps ==> s.steps[id].id == id && s.steps[id].parentId in s.operations)
    && (forall k :: k in s.claims ==> s.claims[k].operationId in s.operations)
    && (forall k :: k in s.locks ==> s.locks[k].operationKey == k)
    && (forall id :: id in s.audits ==> id in s.operations && s.audits[id] != [])
  }

  ghost predicate OneChild(s: State) {
    forall a, b :: a in s.steps && b in s.steps && s.steps[a].parentId == s.steps[b].parentId ==> a == b
  }

  /** The part that holds however the calls are mixed. */
  ghost predicate Structural(s: State) {
    Keyed(s) && OneChild(s)
  }

  // ---------------------------------------------------------------- the protocol's own invariants

  /** A present lock carries the newest token of its key and belongs to an operation of that key. */
  ghost predicate LocksCurrent(s: State) {
    forall k :: k in s.locks ==>
      && s.locks[k].token == Fence(s, k)
      && s.locks[k].owner in s.operations
      && s.operations[s.locks[k].owner].plan.operationKey == k
  }

  predicate HoldsLock(s: State, op: Operation) {
    op.plan.operationKey in s.locks && s.locks[op.plan.operationKey].owner == op.plan.operationId
  }

  ghost predicate Quarantined(s: State) {
    forall id :: id in s.operations && s.operations[id].verdict.status == Indeterminate ==> HoldsLock(s, s.operations[id])
  }

  ghost predicate ParentsAgree(s: State)
    requires Keyed(s)
  {
    forall id :: id in s.steps ==>
      s.operations[s.steps[id].parentId].verdict == SoleVerdict(s.steps[id].verdict)
  }

  predicate DispatchConsistent(st: Step) {
    && (st.dispatch.Some? ==> st.verdict.status !in {Pending, Authorized, Validated})
    && (st.verdict.effect != EffectNotStarted ==> st.dispatch.Some?)
  }

  ghost predicate DispatchesConsistent(s: State) {
    forall id :: id in s.steps ==> DispatchConsistent(s.steps[id])
  }

  // ---------------------------------------------------------------- the audit log

  predicate EventFits(s: State, id: Id, k: nat, e: AuditEvent) {
    && e.sequence == k + 1
    && e.operationId == id
    && (e.childStepId.Some? ==> e.childStepId.value in s.steps && s.steps[e.childStepId.value].parentId == id)
  }

  ghost predicate LogsNumbered(s: State) {
    forall id, k :: id in s.audits && 0 <= k < |s.audits[id]| ==> EventFits(s, id, k, s.audits[id][k])
  }

  predicate OneDispatch(events: seq<AuditEvent>) {
    forall j, k ::
      0 <= j < k < |events| && events[j].eventType == DispatchEvent ==> events[k].eventType != DispatchEvent
  }

  ghost predicate DispatchesLogged(s: State) {
    && (forall id :: id in s.audits ==> OneDispatch(s.audits[id]))
    && (forall id :: id in s.steps ==>
          (s.steps[id].dispatch.Some? <==> HasDispatchEvent(AuditsOf(s, s.steps[id].parentId))))
    && (forall id, k :: id in s.audits && 0 <= k < |s.audits[id]| && s.audits[id][k].eventType == DispatchEvent ==>
          (s.audits[id][k].childStepId.None? <==> StepsOf(s, id) == {}))
  }

  /** The statuses recorded for one step, oldest first. */
  function StatusPath(events: seq<AuditEvent>, stepId: Id): seq<ActionStatus> {
    if events == [] then []
    else
      var last := events[|events| - 1];
      StatusPath(events[..|events| - 1], stepId) + (if last.childStepId == Some(stepId) then [last.status] else [])
  }

  predicate PathEdge(from: ActionStatus, to: ActionStatus) {
    from == to || TransitionAllowed(from, to) || (to == Rejected && RecoveryAllowed(from, to))
  }

  predicate LegalPath(path: seq<ActionStatus>, current: ActionStatus) {
    && path != []
    && path[0] == Validated
    && path[|path| - 1] == current
    && forall k :: 0 < k < |path| ==> PathEdge(path[k - 1], path[k])
  }

  ghost predicate PathsLegal(s: State) {
    forall id :: id in s.steps ==>
      LegalPath(StatusPath(AuditsOf(s, s.steps[id].parentId), id), s.steps[id].verdict.status)
  }

  ghost predicate Inv(s: State) {
    && Structural(s)
    && LocksCurrent(s)
    && Quarantined(s)
    && ParentsAgree(s)
    && DispatchesConsistent(s)
    && LogsNumbered(s)
    && DispatchesLogged(s)
    && PathsLegal(s)
  }

  lemma InitialInv()
    ensures Inv(EmptyState)
  {
  }

  // ---------------------------------------------------------------- lawful effects

  predicate StepChange(before: Step, after: Step) {
    && after.parentId == before.parentId && after.origin == before.origin
    && PathEdge(before.verdict.status, after.verdict.status)
    && (IsTerminal(before.verdict.status) ==> after == before)
    && (before.dispatch.Some? ==> after.dispatch == before.dispatch)
    && (before.verdict.effect != EffectNotStarted ==> after.verdict.effect != EffectNotStarted)
  }

  /** An operation row is new and validated, or keeps its plan and is not yet finished. */
  ghost predicate LawfulOperation(s: State, op: Operation) {
    var id := op.plan.operationId;
    && (id !in s.operations ==> op.verdict.status == Validated)
    && (id in s.operations ==>
          && op.plan == s.operations[id].plan
          && (IsTerminal(s.operations[id].verdict.status) ==> op == s.operations[id]))
    && (IsActive(op.verdict.status) || op.verdict.status == Indeterminate ==> HoldsLock(s, op))
  }

  /** A step row is new, validated and created with its parent, or a legal change of the old row. */
  ghost predicate LawfulStep(s: State, parent: Option<Operation>, st: Step) {
    && parent.Some?
    && st.parentId == parent.value.plan.operationId
    && parent.value.verdict == SoleVerdict(st.verdict)
    && DispatchConsistent(st)
    && (st.id in s.steps ==> st.parentId in s.operations && StepChange(s.steps[st.id], st))
    && (st.id !in s.steps ==> st.parentId !in s.operations && st.verdict.status == Validated)
  }

  ghost predicate LawfulLock(s: State, e: Effect) {
    match e.lock
    case KeepLocks => true
    case GrantLock(lease) =>
      && e.operation.None?
      && lease.token == Fence(s, lease.operationKey) + 1
      && lease.owner in s.operations
      && s.operations[lease.owner].plan.operationKey == lease.operationKey
      && (lease.operationKey in s.locks ==>
            s.locks[lease.operationKey].owner in s.operations
            && s.operations[s.locks[lease.operationKey].owner].verdict.status != Indeterminate)
    case RenewLock(lease) =>
      lease.operationKey in s.locks && lease == s.locks[lease.operationKey].(expiresAt := lease.expiresAt)
    case DropLock(key) =>
      && key in s.locks
      && s.locks[key].owner in s.operations
      && var op := CommitOperation(s.operations, e.operation)[s.locks[key].owner];
         IsTerminal(op.verdict.status) && op.verdict.status != Indeterminate
  }

  /** New events continue the log of the written operation; a child event is about the written step. */
  ghost predicate LawfulEvent(s: State, e: Effect, k: nat)
    requires k < |e.events|
  {
    var v := e.events[k];
    && v.sequence == |AuditsOf(s, e.logged)| + k + 1
    && v.operationId == e.logged
    && (v.childStepId.Some? ==>
          e.step.Some? && v.childStepId.value == e.step.value.id && v.status == e.step.value.verdict.status)
  }

  /** A dispatch event is the first of its log, and marks the step if there is one. */
  ghost predicate LawfulDispatch(s: State, e: Effect) {
    && OneDispatch(e.events)
    && (e.step.Some? ==>
          (HasDispatchEvent(e.events) <==>
             e.step.value.dispatch.Some? && (e.step.value.id in s.steps ==> s.steps[e.step.value.id].dispatch.None?)))
    && (HasDispatchEvent(e.events) ==>
          && !HasDispatchEvent(AuditsOf(s, e.logged))
          && (forall k :: 0 <= k < |e.events| && e.events[k].eventType == DispatchEvent ==>
                (e.events[k].childStepId.Some? <==> e.step.Some?)))
    && (e.step.None? ==> !HasDispatchEvent(e.events) || StepsOf(s, e.logged) == {})
  }

  /** Exactly one of the new events is about the written step. */
  predicate OneStepEvent(e: Effect) {
    e.step.Some? ==>
      exists k :: 0 <= k < |e.events| && e.events[k].childStepId.Some?
                  && (forall j :: 0 <= j < |e.events| && j != k ==> e.events[j].childStepId.None?)
  }

  ghost predicate LawfulLog(s: State, e: Effect) {
    && (e.events != [] ==> e.logged in CommitOperation(s.operations, e.operation))
    && (e.operation.Some? ==> e.logged == e.operation.value.plan.operationId)
    && (forall k :: 0 <= k < |e.events| ==> LawfulEvent(s, e, k))
    && LawfulDispatch(s, e)
    && OneStepEvent(e)
  }

  ghost predicate LawfulRows(s: State, e: Effect) {
    && (e.operation.Some? ==> LawfulOperation(s, e.operation.value))
    && (e.operation.Some? && e.step.None? ==> StepsOf(s, e.operation.value.plan.operationId) == {})
    && (e.step.Some? ==> LawfulStep(s, e.operation, e.step.value))
  }

  ghost predicate Lawful(s: State, e: Effect) {
    && LawfulRows(s, e)
    && (e.claim.PutClaim? ==> e.claim.entry.operationId in CommitOperation(s.operations, e.operation))
    && LawfulLock(s, e)
    && LawfulLog(s, e)
  }

  // ---------------------------------------------------------------- lawful effects keep the invariant

  /** What an effect needs for the tables to go on fitting together, whatever the call. */
  ghost predicate Fits(s: State, e: Effect) {
    && (e.step.Some? ==>
          && e.operation.Some? && e.step.value.parentId == e.operation.value.plan.operationId
          && (e.step.value.id in s.steps ==> s.steps[e.step.value.id].parentId == e.step.value.parentId)
          && (e.step.value.id !in s.steps ==> e.step.value.parentId !in s.operations))
    && (e.claim.PutClaim? ==> e.claim.entry.operationId in CommitOperation(s.operations, e.operation))
    && (e.events != [] ==> e.logged in CommitOperation(s.operations, e.operation))
  }

  lemma KeepsKeyed(s: State, e: Effect)
    requires Keyed(s) && Fits(s, e)
    ensures Keyed(Commit(s, e))
  {
  }

  lemma KeepsOneChild(s: State, e: Effect)
    requires Keyed(s) && OneChild(s) && Fits(s, e)
    ensures OneChild(Commit(s, e))
  {
  }

  lemma LawfulFits(s: State, e: Effect)
    requires Lawful(s, e)
    ensures Fits(s, e)
  {
  }

  lemma KeepsLocks(s: State, e: Effect)
    requires Keyed(s) && LocksCurrent(s) && LawfulRows(s, e) && LawfulLock(s, e)
    ensures LocksCurrent(Commit(s, e))
  {
  }

  lemma KeepsQuarantine(s: State, e: Effect)
    requires Keyed(s) && LocksCurrent(s) && Quarantined(s) && LawfulRows(s, e) && LawfulLock(s, e)
    ensures Quarantined(Commit(s, e))
  {
  }

  lemma KeepsParents(s: State, e: Effect)
    requires Structural(s) && ParentsAgree(s) && Lawful(s, e)
    ensures Keyed(Commit(s, e)) && ParentsAgree(Commit(s, e))
  {
    LawfulFits(s, e);
    KeepsKeyed(s, e);
    var s' := Commit(s, e);
    forall id | id in s'.steps
      ensures s'.operations[s'.steps[id].parentId].verdict == SoleVerdict(s'.steps[id].verdict)
    {
      if e.operation.Some? && e.step.None? && id in s.steps {
        assert id !in StepsOf(s, e.operation.value.plan.operationId);
      }
    }
  }

  lemma KeepsDispatches(s: State, e: Effect)
    requires DispatchesConsistent(s) && LawfulRows(s, e)
    ensures DispatchesConsistent(Commit(s, e))
  {
  }

  /** The events an effect adds to one operation's log. */
  function NewEvents(e: Effect, id: Id): seq<AuditEvent> {
    if id == e.logged then e.events else []
  }

  /** Every effect only appends to the logs. */
  lemma LogsGrow(s: State, e: Effect, id: Id)
    ensures AuditsOf(Commit(s, e), id) == AuditsOf(s, id) + NewEvents(e, id)
  {
  }

  lemma KeepsNumbering(s: State, e: Effect)
    requires Keyed(s) && LogsNumbered(s) && LawfulRows(s, e) && LawfulLog(s, e)
    ensures LogsNumbered(Commit(s, e))
  {
    var s' := Commit(s, e);
    forall id, k | id in s'.audits && 0 <= k < |s'.audits[id]|
      ensures EventFits(s', id, k, s'.audits[id][k])
    {
      LogsGrow(s, e, id);
      if k < |AuditsOf(s, id)| {
        assert EventFits(s, id, k, s.audits[id][k]);
        assert s'.audits[id][k] == s.audits[id][k];
      } else {
        assert LawfulEvent(s, e, k - |AuditsOf(s, id)|);
      }
    }
  }

  // ---------------------------------------------------------------- dispatch events

  lemma HasDispatchConcat(a: seq<AuditEvent>, b: seq<AuditEvent>)
    ensures HasDispatchEvent(a + b) <==> HasDispatchEvent(a) || HasDispatchEvent(b)
  {
    if HasDispatchEvent(b) {
      var k :| 0 <= k < |b| && b[k].eventType == DispatchEvent;
      assert (a + b)[|a| + k] == b[k];
    }
    if HasDispatchEvent(a) {
      var k :| 0 <= k < |a| && a[k].eventType == DispatchEvent;
      assert (a + b)[k] == a[k];
    }
  }

  lemma OneDispatchConcat(a: seq<AuditEvent>, b: seq<AuditEvent>)
    requires OneDispatch(a) && OneDispatch(b) && !(HasDispatchEvent(a) && HasDispatchEvent(b))
    ensures OneDispatch(a + b)
  {
  }

  /** An operation's steps are created with it and never later. */
  lemma SameChildren(s: State, e: Effect, id: Id)
    requires Structural(s) && LawfulRows(s, e) && id in s.operations
    ensures StepsOf(Commit(s, e), id) == StepsOf(s, id)
  {
  }

  /** A step the effect does not write gets no events of its own and no dispatch event. */
  lemma ForeignEvents(s: State, e: Effect, id: Id)
    requires Structural(s) && LawfulRows(s, e) && LawfulLog(s, e) && id in s.steps && (e.step.Some? ==> e.step.value.id != id)
    ensures !HasDispatchEvent(NewEvents(e, s.steps[id].parentId))
    ensures forall k :: 0 <= k < |e.events| ==> e.events[k].childStepId != Some(id)
  {
    assert id in StepsOf(s, s.steps[id].parentId);
    forall k | 0 <= k < |e.events| ensures e.events[k].childStepId != Some(id) {
      assert LawfulEvent(s, e, k);
    }
  }

  lemma StepDispatchLogged(s: State, e: Effect, id: Id)
    requires Structural(s) && DispatchesLogged(s) && LawfulRows(s, e) && LawfulLog(s, e)
    requires id in Commit(s, e).steps
    ensures var st := Commit(s, e).steps[id];
            st.dispatch.Some? <==> HasDispatchEvent(AuditsOf(Commit(s, e), st.parentId))
  {
    var st := Commit(s, e).steps[id];
    LogsGrow(s, e, st.parentId);
    HasDispatchConcat(AuditsOf(s, st.parentId), NewEvents(e, st.parentId));
    if id in s.steps && (e.step.Some? ==> e.step.value.id != id) {
      ForeignEvents(s, e, id);
    }
  }

  lemma DispatchChildKnown(s: State, e: Effect, id: Id, k: nat)
    requires Structural(s) && DispatchesLogged(s) && LawfulRows(s, e) && LawfulLog(s, e)
    requires k < |AuditsOf(Commit(s, e), id)| && AuditsOf(Commit(s, e), id)[k].eventType == DispatchEvent
    ensures AuditsOf(Commit(s, e), id)[k].childStepId.None? <==> StepsOf(Commit(s, e), id) == {}
  {
    var s' := Commit(s, e);
    LogsGrow(s, e, id);
    if k < |AuditsOf(s, id)| {
      SameChildren(s, e, id);
    } else {
      var v := e.events[k - |AuditsOf(s, id)|];
      assert HasDispatchEvent(e.events);
      if e.step.Some? {
        assert e.step.value.id in StepsOf(s', id);
      } else {
        assert StepsOf(s', id) == StepsOf(s, id);
      }
    }
  }

  lemma KeepsDispatchLogs(s: State, e: Effect)
    requires Structural(s) && DispatchesLogged(s) && LawfulRows(s, e) && LawfulLog(s, e)
    ensures DispatchesLogged(Commit(s, e))
  {
    var s' := Commit(s, e);
    forall id | id in s'.audits ensures OneDispatch(s'.audits[id]) {
      LogsGrow(s, e, id);
      OneDispatchConcat(AuditsOf(s, id), NewEvents(e, id));
    }
    forall id | id in s'.steps
      ensures s'.steps[id].dispatch.Some? <==> HasDispatchEvent(AuditsOf(s', s'.steps[id].parentId))
    {
      StepDispatchLogged(s, e, id);
    }
    forall id, k | id in s'.audits && 0 <= k < |s'.audits[id]| && s'.audits[id][k].eventType == DispatchEvent
      ensures s'.audits[id][k].childStepId.None? <==> StepsOf(s', id) == {}
    {
      DispatchChildKnown(s, e, id, k);
    }
  }

  // ---------------------------------------------------------------- status paths

  lemma {:induction false} StatusPathConcat(a: seq<AuditEvent>, b: seq<AuditEvent>, stepId: Id)
    ensures StatusPath(a + b, stepId) == StatusPath(a, stepId) + StatusPath(b, stepId)
  {
    if b == [] {
      assert a + b == a;
    } else {
      var front := b[..|b| - 1];
      assert (a + b)[..|a + b| - 1] == a + front;
      StatusPathConcat(a, front, stepId);
    }
  }

  lemma {:induction false} StatusPathForeign(b: seq<AuditEvent>, stepId: Id)
    requires forall k :: 0 <= k < |b| ==> b[k].childStepId != Some(stepId)
    ensures StatusPath(b, stepId) == []
  {
    if b != [] { StatusPathForeign(b[..|b| - 1], stepId); }
  }

  /** A log with a single event about the step. */
  lemma StatusPathSingle(b: seq<AuditEvent>, k: nat, stepId: Id)
    requires k < |b| && b[k].childStepId == Some(stepId)
    requires forall j :: 0 <= j < |b| && j != k ==> b[j].childStepId.None?
    ensures StatusPath(b, stepId) == [b[k].status]
  {
    assert b == b[..k] + ([b[k]] + b[k + 1..]);
    StatusPathConcat(b[..k], [b[k]] + b[k + 1..], stepId);
    StatusPathConcat([b[k]], b[k + 1..], stepId);
    StatusPathForeign(b[..k], stepId);
    StatusPathForeign(b[k + 1..], stepId);
    assert StatusPath([b[k]], stepId) == StatusPath([b[k]][..0], stepId) + [b[k].status];
  }

  lemma WrittenStatus(s: State, e: Effect)
    requires LawfulLog(s, e) && e.step.Some?
    ensures StatusPath(e.events, e.step.value.id) == [e.step.value.verdict.status]
  {
    var k :| 0 <= k < |e.events| && e.events[k].childStepId.Some?
             && (forall j :: 0 <= j < |e.events| && j != k ==> e.events[j].childStepId.None?);
    assert LawfulEvent(s, e, k);
    StatusPathSingle(e.events, k, e.step.value.id);
  }

  lemma WrittenPath(s: State, e: Effect)
    requires Structural(s) && PathsLegal(s) && LawfulRows(s, e) && e.step.Some?
    ensures var st := e.step.value;
            LegalPath(StatusPath(AuditsOf(s, st.parentId), st.id) + [st.verdict.status], st.verdict.status)
  {
    var st := e.step.value;
    if st.id in s.steps {
      assert LegalPath(StatusPath(AuditsOf(s, st.parentId), st.id), s.steps[st.id].verdict.status);
    } else {
      assert AuditsOf(s, st.parentId) == [];
    }
  }

  lemma PathOf(s: State, e: Effect, id: Id)
    requires Structural(s) && PathsLegal(s) && LawfulRows(s, e) && LawfulLog(s, e) && id in Commit(s, e).steps
    ensures var st := Commit(s, e).steps[id];
            LegalPath(StatusPath(AuditsOf(Commit(s, e), st.parentId), id), st.verdict.status)
  {
    hide LegalPath, StatusPath, OneChild;
    var st := Commit(s, e).steps[id];
    LogsGrow(s, e, st.parentId);
    StatusPathConcat(AuditsOf(s, st.parentId), NewEvents(e, st.parentId), id);
    if e.step.Some? && e.step.value.id == id {
      WrittenStatus(s, e);
      WrittenPath(s, e);
    } else {
      ForeignEvents(s, e, id);
      StatusPathForeign(NewEvents(e, st.parentId), id);
      assert StatusPath(AuditsOf(s, st.parentId), id) + [] == StatusPath(AuditsOf(s, st.parentId), id);
    }
  }

  lemma KeepsPaths(s: State, e: Effect)
    requires Structural(s) && PathsLegal(s) && LawfulRows(s, e) && LawfulLog(s, e)
    ensures PathsLegal(Commit(s, e))
  {
    var s' := Commit(s, e);
    forall id | id in s'.steps
      ensures LegalPath(StatusPath(AuditsOf(s', s'.steps[id].parentId), id), s'.steps[id].verdict.status)
    {
      PathOf(s, e, id);
    }
  }

  // ---------------------------------------------------------------- together

  lemma LawfulKeepsInv(s: State, e: Effect)
    requires Inv(s) && Lawful(s, e)
    ensures Inv(Commit(s, e))
  {
    LawfulFits(s, e);
    KeepsKeyed(s, e);
    KeepsOneChild(s, e);
    KeepsLocks(s, e);
    KeepsQuarantine(s, e);
    KeepsParents(s, e);
    KeepsDispatches(s, e);
    KeepsNumbering(s, e);
    KeepsDispatchLogs(s, e);
    KeepsPaths(s, e);
  }
}
