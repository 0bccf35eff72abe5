/**
 * The in-memory repository: six tables updated in place, with explicit save and
 * restore when an audit write fails. Every call is proved to commit exactly the
 * transaction the model decides on.
 */
module Repository {
  import opened Basics
  import opened ActionStatuses
  import opened Aggregation
  import opened MutationModel
  import opened MutationInvariants
  import opened MutationCalls
  import ClaimKeys

  type AuditTable = map<Id, seq<AuditEvent>>

  function LogOf(audits: AuditTable, id: Id): seq<AuditEvent> {
    if id in audits then audits[id] else []
  }

  lemma NoLogYet(s: State, id: Id)
    requires Keyed(s) && id !in s.operations
    ensures id !in s.audits
  {
  }

  lemma SingleFromStructure(s: State)
    requires Structural(s)
    ensures SingleChildren(s.steps)
  {
  }

  lemma CountChildren(s: State, id: Id, children: seq<Step>)
    requires forall k :: k in s.steps && s.steps[k].parentId == id ==> children == [s.steps[k]]
    requires children != [] ==> exists k :: k in s.steps && s.steps[k].parentId == id && children == [s.steps[k]]
    requires SingleChildren(s.steps)
    ensures |children| == |StepsOf(s, id)|
  {
    if children != [] {
      var k :| k in s.steps && s.steps[k].parentId == id && children == [s.steps[k]];
      assert StepsOf(s, id) == {k};
    } else {
      assert StepsOf(s, id) == {};
    }
  }

  lemma SoleStep(s: State, id: Id, children: seq<Step>)
    requires Keyed(s) && |children| == 1
    requires exists k :: k in s.steps && s.steps[k].parentId == id && children == [s.steps[k]]
    requires forall k :: k in s.steps && s.steps[k].parentId == id ==> children == [s.steps[k]]
    ensures forall k :: k in StepsOf(s, id) ==> s.steps[k] == children[0]
    ensures StepsOf(s, id) != {}
  {
    var k :| k in s.steps && s.steps[k].parentId == id && children == [s.steps[k]];
    assert k in StepsOf(s, id);
  }

  lemma OperationKeyed(s: State, id: Id)
    requires Keyed(s) && id in s.operations
    ensures s.operations[id].plan.operationId == id
  {
  }

  lemma StepKeyed(s: State, id: Id)
    requires Keyed(s) && id in s.steps
    ensures s.steps[id].id == id
  {
  }

  /** The operation as its finished step leaves it. */
  function FinishedParent(op: Operation, st: Step, token: Option<nat>, now: int): Operation {
    op.(verdict := SoleVerdict(st.verdict), token := (if token.Some? then token else op.token),
        progress := Completed(op.progress, now))
  }

  lemma LogsNonEmpty(s: State, id: Id)
    requires Keyed(s)
    ensures id in s.audits ==> s.audits[id] != []
  {
  }

  /** An update, table by table. */
  lemma UpdateCommits(s: State, op: Operation, st: Step, events: seq<AuditEvent>, lock: LockChange)
    requires events != [] && !lock.GrantLock?
    ensures Commit(s, UpdateEffect(op, Some(st), events, lock)) ==
            s.(operations := s.operations[op.plan.operationId := op], steps := s.steps[st.id := st],
               locks := CommitLock(s.locks, lock), audits := CommitLog(s.audits, op.plan.operationId, events))
  {
  }

  lemma CommitNothing(s: State)
    ensures Commit(s, NoEffect) == s
  {
  }

  ghost predicate SingleChildren(steps: map<Id, Step>) {
    forall a, b :: a in steps && b in steps && steps[a].parentId == steps[b].parentId ==> a == b
  }

  lemma SameRow<K, V>(table: map<K, V>, key: K)
    requires key in table
    ensures table[key := table[key]] == table
  {
  }

  lemma RewriteKeepsSingle(s: State, st: Step)
    requires Structural(s) && st.id in s.steps && s.steps[st.id].parentId == st.parentId
    ensures SingleChildren(s.steps[st.id := st])
  {
  }

  /** Overwriting a slot and then restoring what was there, if anything, is no change. */
  lemma SlotRestored<K, V>(table: map<K, V>, key: K, value: V)
    ensures key !in table ==> table[key := value] - {key} == table
    ensures (table - {key})[key := value] - {key} == table - {key}
    ensures key in table ==> (table - {key})[key := table[key]] == table
    ensures (table - {key})[key := value] == table[key := value]
  {
  }

  lemma LogRemoved(original: AuditTable, audits: AuditTable, id: Id)
    requires id !in original && audits.Keys <= original.Keys + {id}
    requires forall k :: k in original && k != id ==> k in audits && audits[k] == original[k]
    ensures audits - {id} == original
  {
  }

  /** Writing a row and writing the saved one back is no change. */
  lemma PutBack<K, V>(table: map<K, V>, key: K, value: V)
    requires key in table
    ensures table[key := value][key := table[key]] == table
  {
  }

  class MutationRepository {
    var operations: map<Id, Operation>
    var steps: map<Id, Step>
    var claims: map<string, ClaimEntry>
    var locks: map<Id, Lease>
    var fences: map<Id, nat>
    var audits: AuditTable
    var failNextAudit: bool

    ghost function View(): State
      reads this
    {
      State(operations, steps, claims, locks, fences, audits)
    }

    ghost predicate Valid()
      reads this
    {
      Structural(View())
    }

    constructor ()
      ensures View() == EmptyState && Valid() && !failNextAudit
    {
      operations, steps, claims, locks, fences, audits := map[], map[], map[], map[], map[], map[];
      failNextAudit := false;
    }

    // ---------------------------------------------------------------- audit and children

    /** Appends one event, or fails once if failure was requested. */
    method Append(op: Operation, child: Option<Step>, eventType: EventType, now: int, reason: Option<string>) returns (ok: bool)
      modifies this`audits, this`failNextAudit
      ensures ok == !old(failNextAudit) && !failNextAudit
      ensures !ok ==> audits == old(audits)
      ensures ok ==>
        audits == CommitLog(old(audits), op.plan.operationId,
                            [MakeEvent(|LogOf(old(audits), op.plan.operationId)| + 1, op, child, eventType, now, reason)])
    {
      if failNextAudit {
        failNextAudit := false;
        return false;
      }
      var log := LogOf(audits, op.plan.operationId);
      var event := MakeEvent(|log| + 1, op, child, eventType, now, reason);
      audits := audits[op.plan.operationId := log + [event]];
      ok := true;
    }

    /**
     * Two events in a row. `raised` says that failure is requested while the call is
     * under way, before its last audit write.
     */
    method AppendPair(
        op: Operation, first: Option<Step>, firstType: EventType, second: Option<Step>, secondType: EventType,
        now: int, reason: Option<string>, raised: bool) returns (ok: bool)
      modifies this`audits, this`failNextAudit
      ensures ok == !(old(failNextAudit) || raised) && !failNextAudit
      ensures audits.Keys <= old(audits).Keys + {op.plan.operationId}
      ensures forall id :: id in old(audits) && id != op.plan.operationId ==> id in audits && audits[id] == old(audits)[id]
      ensures ok ==>
        var log := LogOf(old(audits), op.plan.operationId);
        audits == CommitLog(old(audits), op.plan.operationId,
                            [MakeEvent(|log| + 1, op, first, firstType, now, reason),
                             MakeEvent(|log| + 2, op, second, secondType, now, reason)])
    {
      ok := Append(op, first, firstType, now, reason);
      if ok {
        if raised {
          failNextAudit := true;
        }
        ghost var id, log := op.plan.operationId, LogOf(old(audits), op.plan.operationId);
        ok := Append(op, second, secondType, now, reason);
        assert !ok || audits[id] ==
          log + [MakeEvent(|log| + 1, op, first, firstType, now, reason), MakeEvent(|log| + 2, op, second, secondType, now, reason)];
      }
    }

    /** Puts back the log saved before a failed pair of writes; an empty log is no log. */
    method RestoreLog(id: Id, saved: seq<AuditEvent>, ghost original: AuditTable)
      requires saved == LogOf(original, id) && (id in original ==> original[id] != [])
      requires audits.Keys <= original.Keys + {id}
      requires forall k :: k in original && k != id ==> k in audits && audits[k] == original[k]
      modifies this`audits
      ensures audits == original
    {
      audits := if saved == [] then audits - {id} else audits[id := saved];
    }

    /** The steps of one operation; a repository in order has at most one. */
    method StepsFor(operationId: Id) returns (found: seq<Step>)
      requires SingleChildren(steps)
      ensures forall id :: id in steps && steps[id].parentId == operationId ==> found == [steps[id]]
      ensures found != [] ==> exists id :: id in steps && steps[id].parentId == operationId && found == [steps[id]]
    {
      found := [];
      var todo := steps.Keys;
      while todo != {}
        invariant todo <= steps.Keys
        invariant forall id :: id in steps && id !in todo && steps[id].parentId == operationId ==> found == [steps[id]]
        invariant found != [] ==>
          exists id :: id in steps && id !in todo && steps[id].parentId == operationId && found == [steps[id]]
        decreases |todo|
      {
        var id :| id in todo;
        todo := todo - {id};
        if steps[id].parentId == operationId {
          assert found == [];
          found := found + [steps[id]];
        }
      }
    }

    /** The verdict an operation takes from its steps once `st` has been stored. */
    method AggregateFor(st: Step) returns (v: Verdict)
      requires SingleChildren(steps) && st.id in steps && steps[st.id] == st
      ensures v == SoleVerdict(st.verdict)
    {
      var children := StepsFor(st.parentId);
      assert children == [st];
      var verdicts := seq(|children|, k requires 0 <= k < |children| => children[k].verdict);
      assert verdicts == [st.verdict];
      SoleChild(st.verdict);
      v := AggregateParent(verdicts);
    }

    predicate OwnsNow(op: Operation, key: Id, token: nat, now: int, adopt: bool)
      reads this
    {
      && key in locks
      && locks[key].owner == op.plan.operationId
      && locks[key].token == token
      && locks[key].expiresAt > now
      && op.plan.operationKey == key
      && (adopt || op.token == Some(token))
    }

    /** The tables hold what `d` commits to `before`, and the caller gets its reply. */
    ghost predicate Committed(before: State, d: Decision, reply: Reply)
      reads this
    {
      View() == Commit(before, d.effect) && reply == d.reply && Valid()
    }

    // ---------------------------------------------------------------- claims

    method Claim(i: ClaimInput) returns (reply: Reply)
      requires Valid()
      modifies this
      ensures Committed(old(View()), DecideClaim(old(View()), i, old(failNextAudit)), reply)
      ensures failNextAudit == (old(failNextAudit) && reply != Failure(AuditPersistenceFailed))
    {
      hide Keyed, OneChild, Fits, NextEvent, ClaimKeys.ClaimKey, Commit, CreateEffect, DropEffect, ReplayClaim, FreshOperation;
      ghost var before := View();
      ClaimFits(before, i, failNextAudit);
      KeepsStructure(before, DecideClaim(before, i, failNextAudit).effect);
      var key := ClaimKeys.ClaimKey(i.plan.actorId, i.plan.idempotencyKey);
      if key in claims && claims[key].expiresAt > i.now {
        reply := ReplayEntry(claims[key], i.fingerprint, i.now);
      } else if i.plan.operationId in operations {
        DropExpired(key);
        reply := Failure(PersistenceFailed);
      } else {
        reply := StoreClaim(key, i);
      }
    }

    /** The slot is free or its claim has expired: make it free. */
    method DropExpired(key: string)
      modifies this`claims
      ensures View() == Commit(old(View()), DropEffect(old(View()), key))
    {
      if key in claims {
        claims := claims - {key};
      }
    }

    /** Creates the claimed operation. Nothing is undone when the audit write fails. */
    method StoreClaim(key: string, i: ClaimInput) returns (reply: Reply)
      modifies this
      ensures !failNextAudit
      ensures reply == if old(failNextAudit) then Failure(AuditPersistenceFailed) else Created(i.plan.operationId)
      ensures View() == Commit(old(View()),
        CreateEffect(key, ClaimEntry(i.fingerprint, i.plan.operationId, i.expiresAt), FreshOperation(i), None,
                     if old(failNextAudit) then [] else [NextEvent(old(View()), FreshOperation(i), None, ClaimedEvent, i.now, None)]))
    {
      hide MakeEvent;
      var op := FreshOperation(i);
      DropExpired(key);
      operations := operations[i.plan.operationId := op];
      claims := claims[key := ClaimEntry(i.fingerprint, i.plan.operationId, i.expiresAt)];
      assert claims == old(claims)[key := ClaimEntry(i.fingerprint, i.plan.operationId, i.expiresAt)];
      var ok := Append(op, None, ClaimedEvent, i.now, None);
      reply := if ok then Created(i.plan.operationId) else Failure(AuditPersistenceFailed);
    }

    /** Answers a repeated request from its live claim. */
    method ReplayEntry(entry: ClaimEntry, fingerprint: string, now: int) returns (reply: Reply)
      modifies this`audits, this`failNextAudit
      ensures var d := ReplayClaim(old(View()), entry, fingerprint, now, old(failNextAudit));
              View() == Commit(old(View()), d.effect) && reply == d.reply
      ensures failNextAudit == (old(failNextAudit) && reply != Failure(AuditPersistenceFailed))
    {
      hide MakeEvent;
      if entry.fingerprint != fingerprint {
        return Failure(IdempotencyConflict);
      }
      if entry.operationId !in operations {
        return Failure(PersistenceFailed);
      }
      var op := operations[entry.operationId];
      var ok := Append(op, None, ReplayedEvent, now, None);
      reply := if ok then Replayed(entry.operationId) else Failure(AuditPersistenceFailed);
    }

    method ClaimParentWithStep(i: ParentClaimInput, raised: bool) returns (reply: Reply)
      requires Valid()
      modifies this
      ensures Committed(old(View()), DecideClaimParent(old(View()), i, old(failNextAudit) || raised), reply)
      ensures old(failNextAudit) ==> failNextAudit == (reply != Failure(AuditPersistenceFailed))
    {
      hide Keyed, OneChild, Fits, MakeEvent, ClaimKeys.ClaimKey, Commit, CreateEffect, DropEffect, ReplayClaim,
           FreshOperation, FreshStep;
      ghost var before := View();
      CommitNothing(before);
      ClaimParentFits(before, i, failNextAudit || raised);
      KeepsStructure(before, DecideClaimParent(before, i, failNextAudit || raised).effect);
      var problem := ParentClaimProblem(i);
      if problem.Some? {
        return Failure(problem.value);
      }
      var key := ClaimKeys.ClaimKey(i.claim.plan.actorId, i.claim.plan.idempotencyKey);
      if key in claims && claims[key].expiresAt > i.claim.now {
        if raised {
          failNextAudit := true;
        }
        reply := ReplayEntry(claims[key], i.claim.fingerprint, i.claim.now);
      } else if i.claim.plan.operationId in operations || i.stepId in steps {
        DropExpired(key);
        reply := Failure(PersistenceFailed);
      } else {
        NoLogYet(before, i.claim.plan.operationId);
        reply := StoreParentClaim(key, i, raised);
      }
    }

    /** Creates operation, step and claim together; a failed audit write removes all three again. */
    method StoreParentClaim(key: string, i: ParentClaimInput, raised: bool) returns (reply: Reply)
      requires i.claim.plan.operationId !in operations && i.stepId !in steps && i.claim.plan.operationId !in audits
      modifies this
      ensures !failNextAudit
      ensures old(failNextAudit) || raised ==> reply == Failure(AuditPersistenceFailed) && View() == old(View())
      ensures !old(failNextAudit) && !raised ==>
        && reply == Created(i.claim.plan.operationId)
        && var op, st, n := FreshOperation(i.claim), FreshStep(i), |AuditsOf(old(View()), i.claim.plan.operationId)|;
           View() == Commit(old(View()),
             CreateEffect(key, ClaimEntry(i.claim.fingerprint, i.claim.plan.operationId, i.claim.expiresAt), op, Some(st),
                          [MakeEvent(n + 1, op, None, ClaimedEvent, i.claim.now, None),
                           MakeEvent(n + 2, op, Some(st), StepCreatedEvent, i.claim.now, None)]))
    {
      hide MakeEvent, DropEffect;
      var id, existing := i.claim.plan.operationId, if key in claims then Some(claims[key]) else None;
      var op, st := FreshOperation(i.claim), FreshStep(i);
      var entry := ClaimEntry(i.claim.fingerprint, id, i.claim.expiresAt);
      SlotRestored(operations, id, op);
      SlotRestored(steps, st.id, st);
      SlotRestored(claims, key, entry);
      claims := claims - {key};
      operations, steps, claims := operations[id := op], steps[st.id := st], claims[key := entry];
      var ok := AppendPair(op, None, ClaimedEvent, Some(st), StepCreatedEvent, i.claim.now, None, raised);
      if ok {
        return Created(id);
      }
      LogRemoved(old(audits), audits, id);
      operations, steps, claims, audits := operations - {id}, steps - {st.id}, claims - {key}, audits - {id};
      if existing.Some? {
        claims := claims[key := existing.value];
      }
      reply := Failure(AuditPersistenceFailed);
    }

    method ReplayParentClaim(i: ReplayInput) returns (reply: Reply)
      requires Valid()
      modifies this
      ensures Committed(old(View()), DecideReplayParent(old(View()), i, old(failNextAudit)), reply)
      ensures failNextAudit == (old(failNextAudit) && reply != Failure(AuditPersistenceFailed))
    {
      hide Keyed, OneChild, Fits, ClaimKeys.ClaimKey, Commit, ReplayClaim, StepsOf;
      ghost var before := View();
      CommitNothing(before);
      ReplayParentFits(before, i, failNextAudit);
      KeepsStructure(before, DecideReplayParent(before, i, failNextAudit).effect);
      var key := ClaimKeys.ClaimKey(i.actorId, i.idempotencyKey);
      if key !in claims || claims[key].expiresAt <= i.now {
        return NotFound;
      }
      var entry := claims[key];
      if entry.fingerprint != i.fingerprint {
        return Failure(IdempotencyConflict);
      }
      if entry.operationId !in operations {
        return Failure(PersistenceFailed);
      }
      SingleFromStructure(before);
      var children := StepsFor(entry.operationId);
      CountChildren(before, entry.operationId, children);
      if |children| != 1 {
        return Failure(PersistenceFailed);
      }
      reply := ReplayEntry(entry, i.fingerprint, i.now);
    }

    // ---------------------------------------------------------------- steps

    /**
     * Stores a finished step with the operation it finishes, logs both, and frees
     * the key unless the outcome is indeterminate. A failed audit write puts the
     * step, the operation and the log back.
     */
    method StoreVerdict(
        op: Operation, st: Step, token: Option<nat>, eventType: EventType, now: int, reason: Option<string>,
        unlock: Option<Id>, raised: bool) returns (reply: Reply)
      requires Valid() && op.plan.operationId in operations && operations[op.plan.operationId] == op
      requires st.id in steps && steps[st.id].parentId == st.parentId == op.plan.operationId
      modifies this
      ensures !failNextAudit
      ensures old(failNextAudit) || raised ==> reply == Failure(AuditPersistenceFailed) && View() == old(View())
      ensures !old(failNextAudit) && !raised ==>
        && reply == Done
        && var done := FinishedParent(op, st, token, now);
           View() == Commit(old(View()),
             UpdateEffect(done, Some(st), ChildThenParent(old(View()), done, st, eventType, now, reason),
                          if unlock.Some? && done.verdict.status != Indeterminate then DropLock(unlock.value) else KeepLocks))
    {
      hide MakeEvent, OneChild, Keyed, SoleVerdict, Commit, UpdateEffect, CommitLog, FinishedParent;
      ghost var before, lock := View(), KeepLocks;
      LogsNonEmpty(before, op.plan.operationId);
      var id, oldStep, oldLog := op.plan.operationId, steps[st.id], LogOf(audits, op.plan.operationId);
      var ok, done := WriteVerdict(op, st, token, eventType, now, reason, raised);
      if ok {
        if unlock.Some? && done.verdict.status != Indeterminate {
          locks := locks - {unlock.value};
          lock := DropLock(unlock.value);
        }
        UpdateCommits(before, done, st, ChildThenParent(before, done, st, eventType, now, reason), lock);
        return Done;
      }
      PutBack(before.operations, id, done);
      PutBack(before.steps, st.id, st);
      operations, steps := operations[id := op], steps[st.id := oldStep];
      RestoreLog(id, oldLog, before.audits);
      reply := Failure(AuditPersistenceFailed);
    }

    /** The writes of `StoreVerdict`, before it is known whether they stand. */
    method WriteVerdict(
        op: Operation, st: Step, token: Option<nat>, eventType: EventType, now: int, reason: Option<string>, raised: bool)
        returns (ok: bool, done: Operation)
      requires Valid() && op.plan.operationId in operations
      requires st.id in steps && steps[st.id].parentId == st.parentId
      modifies this`operations, this`steps, this`audits, this`failNextAudit
      ensures done == FinishedParent(op, st, token, now) && done.plan == op.plan
      ensures operations == old(operations)[op.plan.operationId := done] && steps == old(steps)[st.id := st]
      ensures ok == !(old(failNextAudit) || raised) && !failNextAudit
      ensures audits.Keys <= old(audits).Keys + {op.plan.operationId}
      ensures forall k :: k in old(audits) && k != op.plan.operationId ==> k in audits && audits[k] == old(audits)[k]
      ensures ok ==> audits == CommitLog(old(audits), op.plan.operationId, ChildThenParent(old(View()), done, st, eventType, now, reason))
    {
      hide MakeEvent, OneChild, Keyed, SoleVerdict;
      RewriteKeepsSingle(View(), st);
      steps := steps[st.id := st];
      var v := AggregateFor(st);
      done := op.(verdict := v, token := (if token.Some? then token else op.token), progress := Completed(op.progress, now));
      operations := operations[op.plan.operationId := done];
      ok := AppendPair(done, Some(st), eventType, None, eventType, now, reason, raised);
    }

    method RejectBeforeOwnership(operationId: Id, stepId: Id, now: int, reason: string, raised: bool) returns (reply: Reply)
      requires Valid()
      modifies this
      ensures Committed(old(View()), DecideReject(old(View()), operationId, stepId, now, reason, old(failNextAudit) || raised), reply)
      ensures old(failNextAudit) ==> failNextAudit == (reply != Failure(AuditPersistenceFailed))
    {
      hide OneChild, Keyed, Fits, Commit, UpdateEffect, ChildThenParent, SoleVerdict;
      ghost var before := View();
      CommitNothing(before);
      RejectFits(before, operationId, stepId, now, reason, failNextAudit || raised);
      KeepsStructure(before, DecideReject(before, operationId, stepId, now, reason, failNextAudit || raised).effect);
      if operationId !in operations || stepId !in steps || steps[stepId].parentId != operationId {
        return Failure(PersistenceFailed);
      }
      OperationKeyed(before, operationId);
      StepKeyed(before, stepId);
      var op, st := operations[operationId], steps[stepId];
      if op.verdict.status != Validated || st.verdict.status != Validated || op.token.Some? || st.token.Some?
         || (op.plan.operationKey in locks && locks[op.plan.operationKey].owner == operationId) {
        return Failure(StaleOwnership);
      }
      reply := StoreVerdict(op, StepAfterRejection(st, reason, now), None, FailedEvent, now, Some(reason), None, raised);
    }

    method FinalizeStepAndParent(i: StepFinalizationInput, raised: bool) returns (reply: Reply)
      requires Valid()
      modifies this
      ensures Committed(old(View()), DecideFinalizeStep(old(View()), i, old(failNextAudit) || raised), reply)
      ensures old(failNextAudit) ==> failNextAudit == (reply != Failure(AuditPersistenceFailed))
    {
      hide OneChild, Keyed, Fits, Commit, UpdateEffect, ChildThenParent, SoleVerdict, EffectChangeAllowed, TerminalEffectAllowed, TransitionAllowed;
      ghost var before := View();
      CommitNothing(before);
      FinalizeFits(before, i, failNextAudit || raised);
      KeepsStructure(before, DecideFinalizeStep(before, i, failNextAudit || raised).effect);
      if !IsTerminal(i.status) {
        return Failure(IllegalTransition);
      }
      if i.operationId !in operations || i.stepId !in steps || steps[i.stepId].parentId != i.operationId {
        return Failure(PersistenceFailed);
      }
      OperationKeyed(before, i.operationId);
      StepKeyed(before, i.stepId);
      var op, st := operations[i.operationId], steps[i.stepId];
      if !OwnsNow(op, i.ownership.operationKey, i.ownership.token, i.now, false) {
        return Failure(StaleOwnership);
      }
      if st.verdict.status !in i.expected || !TransitionAllowed(st.verdict.status, i.status)
         || !EffectChangeAllowed(st.verdict.effect, i.effect, st.dispatch.Some?) || !TerminalEffectAllowed(i.status, i.effect) {
        return Failure(IllegalTransition);
      }
      var eventType := if i.status == Succeeded then CompletedEvent else FailedEvent;
      reply := StoreVerdict(op, StepAfterFinalization(st, i), None, eventType, i.now, i.reason, Some(i.ownership.operationKey), raised);
    }

    method RecoverStepAndParent(operationId: Id, stepId: Id, lease: Lease, now: int, raised: bool) returns (reply: Reply)
      requires Valid()
      modifies this
      ensures Committed(old(View()), DecideRecoverStep(old(View()), operationId, stepId, lease, now, old(failNextAudit) || raised), reply)
      ensures old(failNextAudit) ==> failNextAudit == (reply != Failure(AuditPersistenceFailed))
    {
      hide OneChild, Keyed, Fits, Commit, UpdateEffect, ChildThenParent, RecoveryAllowed;
      ghost var before := View();
      CommitNothing(before);
      RecoverFits(before, operationId, stepId, lease, now, failNextAudit || raised);
      KeepsStructure(before, DecideRecoverStep(before, operationId, stepId, lease, now, failNextAudit || raised).effect);
      if operationId !in operations || stepId !in steps || steps[stepId].parentId != operationId {
        return Failure(PersistenceFailed);
      }
      OperationKeyed(before, operationId);
      StepKeyed(before, stepId);
      var op, st := operations[operationId], steps[stepId];
      if !OwnsNow(op, lease.operationKey, lease.token, now, true) {
        return Failure(StaleOwnership);
      }
      if IsTerminal(st.verdict.status) {
        return Done;
      }
      if !RecoveryAllowed(st.verdict.status, RecoveryStatus(st)) {
        return Failure(IllegalTransition);
      }
      var st' := StepAfterRecovery(st, lease, now);
      reply := StoreVerdict(op, st', Some(lease.token), RecoveredEvent, now, st'.verdict.reason, Some(lease.operationKey), raised);
    }

    method AuthorizeStepDispatch(i: StepDispatchInput) returns (reply: Reply)
      requires Valid()
      modifies this
      ensures Committed(old(View()), DecideAuthorizeStep(old(View()), i, old(failNextAudit)), reply)
      ensures failNextAudit == (old(failNextAudit) && reply != Failure(AuditPersistenceFailed))
    {
      hide OneChild, Keyed, Fits, Commit, UpdateEffect, MakeEvent, CommitLog;
      ghost var before := View();
      CommitNothing(before);
      AuthorizeStepFits(before, i, failNextAudit);
      KeepsStructure(before, DecideAuthorizeStep(before, i, failNextAudit).effect);
      if i.operationId !in operations || i.stepId !in steps || steps[i.stepId].parentId != i.operationId {
        return Failure(PersistenceFailed);
      }
      OperationKeyed(before, i.operationId);
      StepKeyed(before, i.stepId);
      var op, st := operations[i.operationId], steps[i.stepId];
      if !OwnsNow(op, i.operationKey, i.token, i.now, false)
         || st.verdict.status != Executing || st.dispatch.Some? || st.origin.target != i.target {
        return Failure(StaleOwnership);
      }
      var st' := st.(dispatch := Some(Dispatch(i.now, i.token)), token := Some(i.token), progress := st.progress.(updatedAt := i.now));
      steps := steps[i.stepId := st'];
      var ok := Append(op, Some(st'), DispatchEvent, i.now, None);
      if ok {
        SameRow(before.operations, i.operationId);
        UpdateCommits(before, op, st', [NextEvent(before, op, Some(st'), DispatchEvent, i.now, None)], KeepLocks);
        return Done;
      }
      PutBack(before.steps, i.stepId, st');
      steps := steps[i.stepId := st];
      reply := Failure(AuditPersistenceFailed);
    }

    method TransitionStepWithAudit(i: StepTransitionInput) returns (reply: Reply)
      requires Valid()
      modifies this
      ensures Committed(old(View()), DecideTransitionStep(old(View()), i, old(failNextAudit)), reply)
      ensures failNextAudit == (old(failNextAudit) && reply != Failure(AuditPersistenceFailed))
    {
      hide OneChild, Keyed, Fits, Commit, UpdateEffect, EffectChangeAllowed, TransitionAllowed, SoleVerdict, NextEvent, StepAfterTransition, OperationAfterStep;
      ghost var before := View();
      CommitNothing(before);
      TransitionStepFits(before, i, failNextAudit);
      KeepsStructure(before, DecideTransitionStep(before, i, failNextAudit).effect);
      if i.operationId !in operations || i.stepId !in steps || steps[i.stepId].parentId != i.operationId {
        return Failure(PersistenceFailed);
      }
      OperationKeyed(before, i.operationId);
      StepKeyed(before, i.stepId);
      var op, st := operations[i.operationId], steps[i.stepId];
      if !OwnsNow(op, i.ownership.operationKey, i.ownership.token, i.now, i.adopt) {
        return Failure(StaleOwnership);
      }
      if st.verdict.status !in i.expected || !TransitionAllowed(st.verdict.status, i.status)
         || !EffectChangeAllowed(st.verdict.effect, OrElse(i.effect, st.verdict.effect), st.dispatch.Some?) {
        return Failure(IllegalTransition);
      }
      reply := StoreTransition(op, st, i);
    }

    /** Moves a step on, together with the operation that follows it; undone when the audit write fails. */
    method StoreTransition(op: Operation, st: Step, i: StepTransitionInput) returns (reply: Reply)
      requires Valid() && op.plan.operationId in operations && operations[op.plan.operationId] == op
      requires st.id in steps && steps[st.id] == st && st.parentId == op.plan.operationId
      modifies this
      ensures !failNextAudit
      ensures old(failNextAudit) ==> reply == Failure(AuditPersistenceFailed) && View() == old(View())
      ensures !old(failNextAudit) ==>
        && reply == Done
        && var st' := StepAfterTransition(st, i);
           var op' := OperationAfterStep(op, st', i);
           View() == Commit(old(View()),
             UpdateEffect(op', Some(st'), [NextEvent(old(View()), op', Some(st'), i.eventType, i.now, i.reason)], KeepLocks))
    {
      hide OneChild, Keyed, Commit, UpdateEffect, SoleVerdict, MakeEvent, CommitLog;
      ghost var before := View();
      var st' := StepAfterTransition(st, i);
      RewriteKeepsSingle(before, st');
      steps := steps[st.id := st'];
      var v := AggregateFor(st');
      var op' := op.(verdict := v, token := Some(i.ownership.token),
                     progress := op.progress.(startedAt := OrElse(i.startedAt, op.progress.startedAt), updatedAt := i.now));
      assert op' == OperationAfterStep(op, st', i);
      reply := LogRows(before, op, st, op', st', i);
    }

    /** The rest of a transition whose step is already stored: the operation and the log, or everything back. */
    method LogRows(ghost before: State, op: Operation, st: Step, op': Operation, st': Step, i: StepTransitionInput) returns (reply: Reply)
      requires op.plan.operationId in before.operations && before.operations[op.plan.operationId] == op && op'.plan == op.plan
      requires st.id in before.steps && before.steps[st.id] == st && st'.id == st.id
      requires View() == before.(steps := before.steps[st.id := st'])
      modifies this
      ensures !failNextAudit
      ensures old(failNextAudit) ==> reply == Failure(AuditPersistenceFailed) && View() == before
      ensures !old(failNextAudit) ==>
        && reply == Done
        && View() == Commit(before,
             UpdateEffect(op', Some(st'), [NextEvent(before, op', Some(st'), i.eventType, i.now, i.reason)], KeepLocks))
    {
      hide Commit, UpdateEffect, MakeEvent, CommitLog;
      operations := operations[op.plan.operationId := op'];
      var ok := Append(op', Some(st'), i.eventType, i.now, i.reason);
      if ok {
        UpdateCommits(before, op', st', [NextEvent(before, op', Some(st'), i.eventType, i.now, i.reason)], KeepLocks);
        return Done;
      }
      PutBack(before.operations, op.plan.operationId, op');
      PutBack(before.steps, st.id, st');
      operations, steps := operations[op.plan.operationId := op], steps[st.id := st];
      reply := Failure(AuditPersistenceFailed);
    }

    // ---------------------------------------------------------------- operations without steps

    method AuthorizeDispatch(i: DispatchInput) returns (reply: Reply)
      requires Valid()
      modifies this
      ensures Committed(old(View()), DecideAuthorizeOperation(old(View()), i, old(failNextAudit)), reply)
      ensures failNextAudit == (old(failNextAudit) && reply != Failure(AuditPersistenceFailed))
    {
      hide OneChild, Keyed, Fits, Commit, StepsOf, DecideAuthorizeStep, MakeEvent;
      ghost var before := View();
      CommitNothing(before);
      AuthorizeOperationFits(before, i, failNextAudit);
      KeepsStructure(before, DecideAuthorizeOperation(before, i, failNextAudit).effect);
      if i.operationId !in operations {
        return Failure(PersistenceFailed);
      }
      SingleFromStructure(before);
      var children := StepsFor(i.operationId);
      CountChildren(before, i.operationId, children);
      if |children| > 0 {
        if |children| != 1 || i.serviceId.None? {
          return Failure(StaleOwnership);
        }
        SoleStep(before, i.operationId, children);
        reply := AuthorizeStepDispatch(ChildDispatch(i, children[0]));
        return;
      }
      reply := AuthorizeChildless(i);
    }

    /** The authorisation of an operation that has no steps. */
    method AuthorizeChildless(i: DispatchInput) returns (reply: Reply)
      requires Valid() && i.operationId in operations && StepsOf(View(), i.operationId) == {}
      modifies this`audits, this`failNextAudit
      ensures var d := DecideAuthorizeOperation(old(View()), i, old(failNextAudit));
              View() == Commit(old(View()), d.effect) && reply == d.reply
      ensures failNextAudit == (old(failNextAudit) && reply != Failure(AuditPersistenceFailed))
    {
      hide OneChild, Keyed, DecideAuthorizeStep, MakeEvent, StepsOf;
      CommitNothing(View());
      var op := operations[i.operationId];
      var log := LogOf(audits, i.operationId);
      if op.verdict.status != Executing || op.token != Some(i.token) || op.plan.operationKey != i.operationKey
         || op.plan.action != i.action || op.plan.applicationId != i.applicationId
         || op.plan.serviceId != i.serviceId || op.plan.containerId != Some(i.containerId)
         || op.plan.executionDomain != i.executionDomain
         || i.operationKey !in locks || locks[i.operationKey].owner != i.operationId
         || locks[i.operationKey].token != i.token || locks[i.operationKey].expiresAt <= i.now
         || HasDispatchEvent(log) {
        return Failure(StaleOwnership);
      }
      var ok := Append(op, None, DispatchEvent, i.now, None);
      reply := if ok then Done else Failure(AuditPersistenceFailed);
    }

    method TransitionWithAudit(i: TransitionInput) returns (reply: Reply)
      requires Valid()
      modifies this
      ensures Committed(old(View()), DecideTransition(old(View()), i, old(failNextAudit)), reply)
      ensures failNextAudit == (old(failNextAudit) && reply != Failure(AuditPersistenceFailed))
    {
      hide OneChild, Keyed, Fits, Commit, UpdateEffect, TransitionAllowed, NextEvent, OperationAfterTransition;
      ghost var before := View();
      CommitNothing(before);
      TransitionFits(before, i, failNextAudit);
      KeepsStructure(before, DecideTransition(before, i, failNextAudit).effect);
      if i.operationId !in operations {
        return Failure(PersistenceFailed);
      }
      var op := operations[i.operationId];
      if (i.status == Executing || Expects(i.expected) || i.release) && i.ownership.None? {
        return Failure(StaleOwnership);
      }
      if i.adopt && i.ownership.None? {
        return Failure(StaleOwnership);
      }
      if i.status == Indeterminate && i.release {
        return Failure(StaleOwnership);
      }
      if i.ownership.Some? {
        var own := i.ownership.value;
        if own.operationKey !in locks || locks[own.operationKey].owner != i.operationId
           || locks[own.operationKey].token != own.token || locks[own.operationKey].expiresAt <= i.now {
          return Failure(StaleOwnership);
        }
        if !i.adopt && Expects(i.expected) && op.token != Some(own.token) {
          return Failure(StaleOwnership);
        }
      }
      if op.verdict.status !in i.expected || !TransitionAllowed(op.verdict.status, i.status) {
        return Failure(IllegalTransition);
      }
      OperationKeyed(before, i.operationId);
      reply := StoreOperation(op, i);
    }

    /** Moves an operation on, and frees the key when asked to; undone when the audit write fails. */
    method StoreOperation(op: Operation, i: TransitionInput) returns (reply: Reply)
      requires op.plan.operationId == i.operationId && i.operationId in operations && operations[i.operationId] == op
      modifies this
      ensures !failNextAudit
      ensures old(failNextAudit) ==> reply == Failure(AuditPersistenceFailed) && View() == old(View())
      ensures !old(failNextAudit) ==>
        && reply == Done
        && var op' := OperationAfterTransition(op, i);
           View() == Commit(old(View()),
             UpdateEffect(op', None, [NextEvent(old(View()), op', None, i.eventType, i.now, i.reason)],
                          if IsTerminal(i.status) && i.release && i.ownership.Some?
                          then DropLock(i.ownership.value.operationKey) else KeepLocks))
    {
      hide MakeEvent;
      var op' := OperationAfterTransition(op, i);
      PutBack(operations, i.operationId, op');
      operations := operations[i.operationId := op'];
      var ok := Append(op', None, i.eventType, i.now, i.reason);
      if !ok {
        operations := operations[i.operationId := op];
        return Failure(AuditPersistenceFailed);
      }
      if IsTerminal(i.status) && i.release && i.ownership.Some? {
        locks := locks - {i.ownership.value.operationKey};
      }
      reply := Done;
    }

    // ---------------------------------------------------------------- leases

    method AcquireLease(key: Id, operationId: Id, now: int, expiresAt: int) returns (reply: Reply)
      requires Valid()
      modifies this`locks, this`fences
      ensures Committed(old(View()), DecideAcquire(old(View()), key, operationId, now, expiresAt), reply)
    {
      hide OneChild;
      if expiresAt <= now {
        return Failure(LeaseNotInFuture);
      }
      if operationId !in operations || operations[operationId].plan.operationKey != key {
        return Declined;
      }
      if key in locks && locks[key].owner in operations {
        var status := operations[locks[key].owner].verdict.status;
        if status == Indeterminate {
          return Declined;
        }
        if !IsTerminal(status) {
          if locks[key].owner == operationId && locks[key].expiresAt > now {
            return Granted(locks[key]);
          }
          return Declined;
        }
      }
      reply := Issue(key, operationId, now, expiresAt);
    }

    /** Hands out the next token of the key. */
    method Issue(key: Id, operationId: Id, now: int, expiresAt: int) returns (reply: Reply)
      requires Valid()
      modifies this`locks, this`fences
      ensures var lease := Lease(key, operationId, Fence(old(View()), key) + 1, now, expiresAt);
              reply == Granted(lease) && View() == Commit(old(View()), LockEffect(GrantLock(lease)))
      ensures Valid()
    {
      var token := (if key in fences then fences[key] else 0) + 1;
      fences := fences[key := token];
      var lease := Lease(key, operationId, token, now, expiresAt);
      locks := locks[key := lease];
      reply := Granted(lease);
    }

    method AcquireRecoveryLease(key: Id, operationId: Id, now: int, expiresAt: int) returns (reply: Reply)
      requires Valid()
      modifies this`locks, this`fences
      ensures Committed(old(View()), DecideAcquireRecovery(old(View()), key, operationId, now, expiresAt), reply)
    {
      hide OneChild;
      if expiresAt <= now {
        return Failure(LeaseNotInFuture);
      }
      if operationId !in operations || operations[operationId].plan.operationKey != key
         || IsTerminal(operations[operationId].verdict.status) {
        return Declined;
      }
      if key in locks && locks[key].owner in operations && operations[locks[key].owner].verdict.status == Indeterminate {
        return Declined;
      }
      if key in locks && locks[key].expiresAt > now {
        return Declined;
      }
      reply := Issue(key, operationId, now, expiresAt);
    }

    method RenewLease(lease: Lease, now: int, expiresAt: int) returns (reply: Reply)
      requires Valid()
      modifies this`locks
      ensures Committed(old(View()), DecideRenew(old(View()), lease, now, expiresAt), reply)
    {
      if expiresAt <= now {
        return Failure(LeaseNotInFuture);
      }
      var key := lease.operationKey;
      if key !in locks || locks[key].owner != lease.owner || locks[key].token != lease.token || locks[key].expiresAt <= now {
        return Declined;
      }
      locks := locks[key := locks[key].(expiresAt := expiresAt)];
      reply := Granted(locks[key]);
    }

    method ReleaseLease(lease: Lease) returns (reply: Reply)
      requires Valid()
      modifies this`locks
      ensures Committed(old(View()), DecideRelease(old(View()), lease), reply)
    {
      var key := lease.operationKey;
      if key !in locks || locks[key].owner != lease.owner || locks[key].token != lease.token {
        return Declined;
      }
      if locks[key].owner !in operations || !IsTerminal(operations[locks[key].owner].verdict.status)
         || operations[locks[key].owner].verdict.status == Indeterminate {
        return Declined;
      }
      locks := locks - {key};
      reply := Done;
    }

    // ---------------------------------------------------------------- what recovery may look at

    /** The unfinished operations whose key is free or whose lease has expired, oldest first and by id within one instant. */
    method ListRecoverable(compare: (string, string) -> int, now: int) returns (listed: seq<Operation>)
      requires Valid() && TotalOrder(compare)
      ensures forall op :: op in listed ==>
        Recoverable(View(), op.plan.operationId, now) && operations[op.plan.operationId] == op
      ensures forall id :: Recoverable(View(), id, now) ==> operations[id] in listed
      ensures Ranked(compare, listed)
    {
      hide OneChild, TotalOrder, Older;
      listed := [];
      var todo := operations.Keys;
      while todo != {}
        invariant todo <= operations.Keys
        invariant forall op :: op in listed ==>
          && Recoverable(View(), op.plan.operationId, now) && operations[op.plan.operationId] == op
          && op.plan.operationId !in todo
        invariant forall id :: id !in todo && Recoverable(View(), id, now) ==> operations[id] in listed
        invariant Ranked(compare, listed)
        decreases |todo|
      {
        var id :| id in todo;
        todo := todo - {id};
        var op := operations[id];
        if !IsTerminal(op.verdict.status)
           && (op.plan.operationKey !in locks || locks[op.plan.operationKey].expiresAt <= now) {
          assert op.plan.operationId == id;
          assert forall k :: 0 <= k < |listed| ==> listed[k] in listed;
          listed := InsertByAge(compare, listed, op);
        }
      }
    }
  }

  predicate Recoverable(s: State, id: Id, now: int) {
    && id in s.operations
    && !IsTerminal(s.operations[id].verdict.status)
    && (s.operations[id].plan.operationKey in s.locks ==> s.locks[s.operations[id].plan.operationKey].expiresAt <= now)
  }

  /** By creation time, then by id. */
  predicate Older(compare: (string, string) -> int, a: Operation, b: Operation) {
    a.createdAt < b.createdAt || (a.createdAt == b.createdAt && compare(a.plan.operationId, b.plan.operationId) < 0)
  }

  /** Every operation once, in that order. */
  ghost predicate Ranked(compare: (string, string) -> int, listed: seq<Operation>) {
    forall j, k :: 0 <= j < k < |listed| ==>
      Older(compare, listed[j], listed[k]) && listed[j].plan.operationId != listed[k].plan.operationId
  }

  lemma OlderOrders(compare: (string, string) -> int, a: Operation, b: Operation, c: Operation)
    requires TotalOrder(compare)
    ensures Older(compare, a, b) && Older(compare, b, c) ==> Older(compare, a, c)
    ensures a.plan.operationId != b.plan.operationId ==> Older(compare, a, b) || Older(compare, b, a)
  {
  }

  /** No operation of the list has this one's id. */
  ghost predicate Absent(listed: seq<Operation>, op: Operation) {
    forall k :: 0 <= k < |listed| ==> listed[k].plan.operationId != op.plan.operationId
  }

  lemma RankedFirst(compare: (string, string) -> int, op: Operation, listed: seq<Operation>)
    requires TotalOrder(compare) && Ranked(compare, listed) && Absent(listed, op)
    requires listed == [] || Older(compare, op, listed[0])
    ensures Ranked(compare, [op] + listed)
  {
    forall k | 0 <= k < |listed| ensures Older(compare, op, listed[k]) {
      OlderOrders(compare, op, listed[0], listed[k]);
    }
    hide TotalOrder, Older;
  }

  lemma RankedBehind(compare: (string, string) -> int, listed: seq<Operation>, op: Operation, rest: seq<Operation>)
    requires TotalOrder(compare) && Ranked(compare, listed) && Absent(listed, op) && Ranked(compare, rest)
    requires listed != [] && !Older(compare, op, listed[0])
    requires forall k :: 0 <= k < |rest| ==> rest[k] in listed[1..] || rest[k] == op
    ensures Ranked(compare, [listed[0]] + rest)
  {
    OlderOrders(compare, op, listed[0], op);
    hide TotalOrder, Older;
    forall k | 0 <= k < |rest|
      ensures Older(compare, listed[0], rest[k]) && listed[0].plan.operationId != rest[k].plan.operationId
    {
      if rest[k] != op {
        var m :| 0 <= m < |listed[1..]| && listed[1..][m] == rest[k];
        assert listed[m + 1] == rest[k];
      }
    }
  }

  function InsertByAge(compare: (string, string) -> int, listed: seq<Operation>, op: Operation): (r: seq<Operation>)
    requires TotalOrder(compare) && Ranked(compare, listed) && Absent(listed, op)
    ensures Ranked(compare, r)
    ensures forall x :: x in r <==> x in listed || x == op
  {
    if listed == [] || Older(compare, op, listed[0]) then
      RankedFirst(compare, op, listed);
      [op] + listed
    else
      var rest := InsertByAge(compare, listed[1..], op);
      RankedBehind(compare, listed, op, rest);
      [listed[0]] + rest
  }
}
