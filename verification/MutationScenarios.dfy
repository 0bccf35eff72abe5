/** Concrete runs that show which conditions of the theorems cannot be dropped. */
module MutationScenarios {
  import opened Basics
  import opened ActionStatuses
  import opened Aggregation
  import opened MutationModel
  import opened MutationInvariants
  import opened MutationCalls
  import opened MutationRuns
  import opened MutationTheorems
  import opened Repository
  import ClaimKeys

  const Key := "application:app"

  function PlanFor(id: Id, idempotencyKey: string): ActionPlan {
    ActionPlan(id, "operator", "OPERATOR", "RESTART", "app", None, None, "DOCKER", Key, idempotencyKey)
  }

  function ClaimFor(id: Id, idempotencyKey: string): ClaimInput {
    ClaimInput(PlanFor(id, idempotencyKey), "fingerprint", 0, 1000, 500)
  }

  lemma Unfold(run: seq<Input>, n: nat)
    requires n < |run| && !run[n].fault
    ensures StateAt(run, n + 1) == Next(StateAt(run, n), run[n].call, false)
  {
  }

  // ---------------------------------------------------------------- two operations of one key

  const FirstLease := Lease(Key, "a", 1, 0, 10)
  const StolenLease := Lease(Key, "b", 2, 20, 30)

  function Begin(id: Id, lease: Lease, now: int): Call {
    TransitionOperation(TransitionInput(
      id, [Validated], Executing, now, StateChangedEvent, None, None, None, None, None, None, Some(lease), false, false))
  }

  /** `a` starts under a lease that expires; recovery hands the key to `b`, which starts too. */
  function OverlappingRun(): seq<Input> {
    [Input(Claim(ClaimFor("a", "key-1")), false),
     Input(Claim(ClaimFor("b", "key-2")), false),
     Input(AcquireLease(Key, "a", 0, 10), false),
     Input(Begin("a", FirstLease, 1), false),
     Input(AcquireRecoveryLease(Key, "b", 20, 30), false),
     Input(Begin("b", StolenLease, 21), false)]
  }

  ghost predicate Rows(s: State, a: ActionStatus, b: ActionStatus, fence: nat, locks: map<Id, Lease>) {
    && s.steps == map[]
    && "a" in s.operations && s.operations["a"].plan == PlanFor("a", "key-1") && s.operations["a"].verdict.status == a
    && "b" in s.operations && s.operations["b"].plan == PlanFor("b", "key-2") && s.operations["b"].verdict.status == b
    && Fence(s, Key) == fence
    && s.locks == locks
  }

  lemma BothClaimed()
    ensures Rows(Next(Next(EmptyState, Claim(ClaimFor("a", "key-1")), false), Claim(ClaimFor("b", "key-2")), false),
                 Validated, Validated, 0, map[])
  {
    hide ClaimKeys.ClaimKey, MakeEvent;
    var k1, k2 := ClaimKeys.ClaimKey("operator", "key-1"), ClaimKeys.ClaimKey("operator", "key-2");
    if k1 == k2 { ClaimKeys.ClaimKeyInjective("operator", "key-1", "operator", "key-2"); }
    var s1 := Next(EmptyState, Claim(ClaimFor("a", "key-1")), false);
    assert s1.operations == map["a" := FreshOperation(ClaimFor("a", "key-1"))] && s1.claims.Keys == {k1};
  }

  lemma LeaseTaken(s: State)
    requires Rows(s, Validated, Validated, 0, map[])
    ensures Rows(Next(s, AcquireLease(Key, "a", 0, 10), false), Validated, Validated, 1, map[Key := FirstLease])
  {
  }

  lemma FirstBegins(s: State)
    requires Rows(s, Validated, Validated, 1, map[Key := FirstLease])
    ensures Rows(Next(s, Begin("a", FirstLease, 1), false), Executing, Validated, 1, map[Key := FirstLease])
  {
    hide MakeEvent;
  }

  lemma LeaseStolen(s: State)
    requires Rows(s, Executing, Validated, 1, map[Key := FirstLease])
    ensures Rows(Next(s, AcquireRecoveryLease(Key, "b", 20, 30), false), Executing, Validated, 2, map[Key := StolenLease])
  {
  }

  lemma SecondBegins(s: State)
    requires Rows(s, Executing, Validated, 2, map[Key := StolenLease])
    ensures Rows(Next(s, Begin("b", StolenLease, 21), false), Executing, Executing, 2, map[Key := StolenLease])
  {
    hide MakeEvent;
  }

  lemma NoSteps(s: State, c: Call)
    requires s.steps == map[] && (c == Begin("a", FirstLease, 1) || c == Begin("b", StolenLease, 21))
    ensures Disciplined(s, c)
  {
  }

  lemma OverlappingStates()
    ensures Rows(StateAt(OverlappingRun(), 3), Validated, Validated, 1, map[Key := FirstLease])
    ensures Rows(StateAt(OverlappingRun(), 5), Executing, Validated, 2, map[Key := StolenLease])
    ensures Rows(StateAt(OverlappingRun(), 6), Executing, Executing, 2, map[Key := StolenLease])
  {
    hide Next, Begin, ClaimFor, Rows;
    var run := OverlappingRun();
    assert StateAt(run, 0) == EmptyState;
    Unfold(run, 0);
    Unfold(run, 1);
    BothClaimed();
    Unfold(run, 2);
    LeaseTaken(StateAt(run, 2));
    Unfold(run, 3);
    FirstBegins(StateAt(run, 3));
    Unfold(run, 4);
    LeaseStolen(StateAt(run, 4));
    Unfold(run, 5);
    SecondBegins(StateAt(run, 5));
  }

  /** Without the ban on recovery leases two operations of one key can be executing at once. */
  lemma RecoveryBreaksExclusion()
    ensures GoodRun(OverlappingRun())
    ensures var s := StateAt(OverlappingRun(), 6);
            && "a" in s.operations && "b" in s.operations
            && IsActive(s.operations["a"].verdict.status) && IsActive(s.operations["b"].verdict.status)
            && s.operations["a"].plan.operationKey == s.operations["b"].plan.operationKey
            && !HoldsLock(s, s.operations["a"])
  {
    hide StateAt, Begin, ClaimFor;
    OverlappingStates();
    var run := OverlappingRun();
    NoSteps(StateAt(run, 3), run[3].call);
    NoSteps(StateAt(run, 5), run[5].call);
  }

  // ---------------------------------------------------------------- one operation with one step

  const Where := Target("app", "deployment", "service", "container", "RESTART", "DOCKER", "target")
  const Seen := Evidence(0, "evidence", 0, 0, 0)

  const StepLease := Lease(Key, "a", 1, 0, 10)

  function Create(): ParentClaimInput {
    ParentClaimInput(ClaimFor("a", "key-1"), "step", Where, Seen, true, true)
  }

  function Move(from: ActionStatus, to: ActionStatus, adopt: bool, effect: Option<ExternalEffect>): Call {
    TransitionStep(StepTransitionInput("a", "step", [from], to, 1, StateChangedEvent, StepLease, adopt, None, None, effect, None, None))
  }

  ghost predicate OneStep(s: State, status: ActionStatus, effect: ExternalEffect, dispatched: bool, token: Option<nat>) {
    && "step" in s.steps && s.steps["step"].parentId == "a" && s.steps["step"].id == "step"
    && s.steps["step"].origin.target == Where
    && s.steps["step"].verdict.status == status && s.steps["step"].verdict.effect == effect
    && s.steps["step"].dispatch.Some? == dispatched
    && "a" in s.operations && s.operations["a"].plan == PlanFor("a", "key-1") && s.operations["a"].token == token
  }

  ghost predicate Leased(s: State) {
    Key in s.locks && s.locks[Key] == StepLease
  }

  lemma StepCreated()
    ensures OneStep(Next(EmptyState, ClaimParent(Create()), false), Validated, EffectNotStarted, false, None)
    ensures Next(EmptyState, ClaimParent(Create()), false).locks == map[]
    ensures Fence(Next(EmptyState, ClaimParent(Create()), false), Key) == 0
    ensures Next(EmptyState, ClaimParent(Create()), false).operations.Keys == {"a"}
  {
    hide ClaimKeys.ClaimKey, MakeEvent;
    assert "application:" + "app" == Key;
  }

  lemma StepLeased(s: State)
    requires OneStep(s, Validated, EffectNotStarted, false, None) && s.locks == map[] && Fence(s, Key) == 0
    ensures var t := Next(s, AcquireLease(Key, "a", 0, 10), false);
            OneStep(t, Validated, EffectNotStarted, false, None) && Leased(t)
  {
  }

  lemma StepMoved(s: State, from: ActionStatus, to: ActionStatus, adopt: bool, effect: Option<ExternalEffect>, token: Option<nat>)
    requires Leased(s) && TransitionAllowed(from, to) && (adopt || token == Some(1))
    requires OneStep(s, from, EffectNotStarted, effect.Some?, token)
    ensures var t := Next(s, Move(from, to, adopt, effect), false);
            OneStep(t, to, OrElse(effect, EffectNotStarted), effect.Some?, Some(1)) && Leased(t)
  {
    hide MakeEvent, SoleVerdict;
  }

  lemma StepDispatched(s: State)
    requires Leased(s) && OneStep(s, Executing, EffectNotStarted, false, Some(1))
    ensures var t := Next(s, AuthorizeStep(StepDispatchInput("a", Key, 1, "step", Where, 1)), false);
            OneStep(t, Executing, EffectNotStarted, true, Some(1)) && Leased(t)
  {
    hide MakeEvent;
  }

  /** Created, leased and executing. */
  function Prefix(): seq<Input> {
    [Input(ClaimParent(Create()), false),
     Input(AcquireLease(Key, "a", 0, 10), false),
     Input(Move(Validated, Executing, true, None), false)]
  }

  lemma StepStarted(run: seq<Input>)
    requires Prefix() <= run
    ensures OneStep(StateAt(run, 3), Executing, EffectNotStarted, false, Some(1)) && Leased(StateAt(run, 3))
    ensures forall n :: 0 <= n < 3 ==> Disciplined(StateAt(run, n), run[n].call)
  {
    hide Next, Create, Move, MakeEvent;
    assert run[0] == Prefix()[0] && run[1] == Prefix()[1] && run[2] == Prefix()[2];
    assert StateAt(run, 0) == EmptyState;
    Unfold(run, 0);
    StepCreated();
    Unfold(run, 1);
    StepLeased(StateAt(run, 1));
    Unfold(run, 2);
    StepMoved(StateAt(run, 2), Validated, Executing, true, None, None);
    MoveIsDisciplined(StateAt(run, 2), Validated, Executing, true, None);
  }

  lemma MoveIsDisciplined(s: State, from: ActionStatus, to: ActionStatus, adopt: bool, effect: Option<ExternalEffect>)
    ensures Disciplined(s, Move(from, to, adopt, effect))
  {
  }

  function RefusedRun(): seq<Input> {
    Prefix() + [Input(Move(Executing, Verifying, false, None), false), Input(RecoverStep("a", "step", StepLease, 2), false)]
  }

  lemma UndispatchedVerifyingRefused(s: State)
    requires Leased(s) && OneStep(s, Verifying, EffectNotStarted, false, Some(1))
    ensures Decide(s, RecoverStep("a", "step", StepLease, 2), false).reply == Failure(IllegalTransition)
    ensures "a" in s.operations && "step" in s.steps && !IsTerminal(s.steps["step"].verdict.status)
    ensures Owns(s, s.operations["a"], Key, 1, 2, true)
  {
  }

  /** An undispatched step that reached VERIFYING cannot be recovered, even under a valid lease. */
  lemma RecoveryCanBeRefused()
    ensures GoodRun(RefusedRun())
    ensures ReplyAt(RefusedRun(), 4) == Failure(IllegalTransition)
    ensures var s := StateAt(RefusedRun(), 4);
            && "a" in s.operations && "step" in s.steps && !IsTerminal(s.steps["step"].verdict.status)
            && Owns(s, s.operations["a"], Key, 1, 2, true)
  {
    hide Next, StateAt, Prefix, Move, Decide, Owns, OneStep, Leased;
    var run := RefusedRun();
    assert |Prefix()| == 3 by { PrefixLength(); }
    StepStarted(run);
    Unfold(run, 3);
    StepMoved(StateAt(run, 3), Executing, Verifying, false, None, Some(1));
    MoveIsDisciplined(StateAt(run, 3), Executing, Verifying, false, None);
    UndispatchedVerifyingRefused(StateAt(run, 4));
  }

  lemma PrefixLength()
    ensures |Prefix()| == 3
  {
  }

  function OpenEffectRun(): seq<Input> {
    Prefix() + [Input(AuthorizeStep(StepDispatchInput("a", Key, 1, "step", Where, 1)), false),
                Input(Move(Executing, Failed, false, Some(EffectPossiblyActive)), false)]
  }

  /** A transition straight to FAILED can leave an effect open outside quarantine. */
  lemma FinalTransitionLeavesEffectOpen()
    ensures GoodRun(OpenEffectRun()) && !EffectsSettled(StateAt(OpenEffectRun(), 5))
  {
    hide Next, StateAt, Prefix, Move;
    var run := OpenEffectRun();
    assert |Prefix()| == 3 by { PrefixLength(); }
    StepStarted(run);
    Unfold(run, 3);
    StepDispatched(StateAt(run, 3));
    Unfold(run, 4);
    StepMoved(StateAt(run, 4), Executing, Failed, false, Some(EffectPossiblyActive), Some(1));
    MoveIsDisciplined(StateAt(run, 4), Executing, Failed, false, Some(EffectPossiblyActive));
  }

  /** What the orchestrator writes for a silent executor whose dispatch it has not seen. */
  function WriteOff(): Call {
    FinalizeStep(StepFinalizationInput("a", "step", [Executing], Indeterminate, 1, StepLease,
                                       VerificationUnknown, OutcomeUnknown, EffectNotStarted, Some("MUTATION_UNCERTAIN")))
  }

  /** Dispatch is authorised after the orchestrator looked for the mark and before its last write. */
  function LateDispatchRun(): seq<Input> {
    Prefix() + [Input(AuthorizeStep(StepDispatchInput("a", Key, 1, "step", Where, 1)), false), Input(WriteOff(), false)]
  }

  lemma WrittenOff(s: State)
    requires Leased(s) && OneStep(s, Executing, EffectNotStarted, true, Some(1))
    ensures Decide(s, WriteOff(), false).reply == Done
    ensures OneStep(Next(s, WriteOff(), false), Indeterminate, EffectNotStarted, true, Some(1))
  {
    hide MakeEvent;
  }

  /** A dispatched operation can be quarantined with its effect recorded as not started. */
  lemma LateDispatch()
    ensures GoodRun(LateDispatchRun())
    ensures OneStep(StateAt(LateDispatchRun(), 3), Executing, EffectNotStarted, false, Some(1))
    ensures OneStep(StateAt(LateDispatchRun(), 5), Indeterminate, EffectNotStarted, true, Some(1))
  {
    hide Next, StateAt, Prefix, Decide, OneStep;
    var run := LateDispatchRun();
    assert |Prefix()| == 3 by { PrefixLength(); }
    StepStarted(run);
    Unfold(run, 3);
    StepDispatched(StateAt(run, 3));
    Unfold(run, 4);
    WrittenOff(StateAt(run, 4));
  }

  // ---------------------------------------------------------------- a failed audit write

  /** `a` gets its lease, and the audit write of its first transition fails. */
  function InterruptedRun(): seq<Input> {
    [Input(Claim(ClaimFor("a", "key-1")), false),
     Input(Claim(ClaimFor("b", "key-2")), false),
     Input(AcquireLease(Key, "a", 0, 10), false),
     Input(Begin("a", FirstLease, 1), true)]
  }

  lemma FailedBeginning(s: State)
    requires Rows(s, Validated, Validated, 1, map[Key := FirstLease])
    ensures Decide(s, Begin("a", FirstLease, 1), true) == Refuse(AuditPersistenceFailed)
    ensures Next(s, Begin("a", FirstLease, 1), true) == s
  {
    hide MakeEvent;
    CommitNothing(s);
  }

  lemma KeyStaysTaken(s: State, now: int)
    requires Rows(s, Validated, Validated, 1, map[Key := FirstLease])
    ensures !Decide(s, AcquireLease(Key, "b", now, now + 10), false).reply.Granted?
  {
  }

  /** One failed audit write leaves `a` VALIDATED with its lock, and `b` shut out whatever the time. */
  lemma AuditFailureKeepsLock(now: int)
    ensures GoodRun(InterruptedRun()) && ReplyAt(InterruptedRun(), 3) == Failure(AuditPersistenceFailed)
    ensures var s := StateAt(InterruptedRun(), 4);
            && "a" in s.operations && s.operations["a"].verdict.status == Validated && HoldsLock(s, s.operations["a"])
            && !Decide(s, AcquireLease(Key, "b", now, now + 10), false).reply.Granted?
  {
    hide Next, Begin, ClaimFor, Rows, Decide;
    var run := InterruptedRun();
    assert StateAt(run, 0) == EmptyState;
    Unfold(run, 0);
    Unfold(run, 1);
    BothClaimed();
    Unfold(run, 2);
    LeaseTaken(StateAt(run, 2));
    FailedBeginning(StateAt(run, 3));
    KeyStaysTaken(StateAt(run, 3), now);
    RowsNoSteps(StateAt(run, 3));
    NoSteps(StateAt(run, 3), run[3].call);
  }

  lemma RowsNoSteps(s: State)
    requires Rows(s, Validated, Validated, 1, map[Key := FirstLease])
    ensures s.steps == map[] && "a" in s.operations && s.operations["a"].verdict.status == Validated && HoldsLock(s, s.operations["a"])
  {
  }

  // ---------------------------------------------------------------- recovery between claim and lease

  const RecoveryLease := Lease(Key, "a", 1, 5, 35)

  /** How the step-less recovery pass aborts a validated operation. */
  function Abort(lease: Lease, now: int): Call {
    TransitionOperation(TransitionInput(
      "a", [Validated], Rejected, now, RecoveredEvent, Some("RECOVERY_PRE_EXECUTION_ABORTED"), Some(VerificationNotStarted),
      Some(RecoveredPreExecution), None, None, Some(Some(now)), Some(lease), true, true))
  }

  /** A recovery pass runs between the claim of `a` and the lease it asks for. */
  function OvertakenRun(): seq<Input> {
    [Input(Claim(ClaimFor("a", "key-1")), false),
     Input(AcquireRecoveryLease(Key, "a", 5, 35), false),
     Input(Abort(RecoveryLease, 5), false),
     Input(AcquireLease(Key, "a", 0, 120_000), false)]
  }

  ghost predicate Alone(s: State, status: ActionStatus, fence: nat, locks: map<Id, Lease>) {
    && s.steps == map[] && "a" in s.operations && s.operations["a"].plan == PlanFor("a", "key-1")
    && s.operations["a"].verdict.status == status && Fence(s, Key) == fence && s.locks == locks
  }

  lemma AloneClaimed()
    ensures Alone(Next(EmptyState, Claim(ClaimFor("a", "key-1")), false), Validated, 0, map[])
  {
    hide ClaimKeys.ClaimKey, MakeEvent;
  }

  lemma AloneLeased(s: State)
    requires Alone(s, Validated, 0, map[])
    ensures Recoverable(s, "a", 5)
    ensures Alone(Next(s, AcquireRecoveryLease(Key, "a", 5, 35), false), Validated, 1, map[Key := RecoveryLease])
  {
  }

  lemma AloneAborted(s: State)
    requires Alone(s, Validated, 1, map[Key := RecoveryLease])
    ensures Disciplined(s, Abort(RecoveryLease, 5))
    ensures Alone(Next(s, Abort(RecoveryLease, 5), false), Rejected, 1, map[])
  {
    hide MakeEvent;
    assert map[Key := RecoveryLease] - {Key} == map[];
  }

  lemma AloneLeasedAgain(s: State)
    requires Alone(s, Rejected, 1, map[])
    ensures Alone(Next(s, AcquireLease(Key, "a", 0, 120_000), false), Rejected, 2, map[Key := Lease(Key, "a", 2, 0, 120_000)])
  {
  }

  /** The claimed operation ends REJECTED and then gets a fresh lock. */
  lemma RecoveryOvertakesClaim()
    ensures GoodRun(OvertakenRun())
    ensures var s := StateAt(OvertakenRun(), 4);
            "a" in s.operations && s.operations["a"].verdict.status == Rejected && HoldsLock(s, s.operations["a"])
  {
    hide Next, Abort, ClaimFor, Recoverable;
    var run := OvertakenRun();
    assert StateAt(run, 0) == EmptyState;
    Unfold(run, 0);
    AloneClaimed();
    Unfold(run, 1);
    AloneLeased(StateAt(run, 1));
    Unfold(run, 2);
    AloneAborted(StateAt(run, 2));
    Unfold(run, 3);
    AloneLeasedAgain(StateAt(run, 3));
  }

  // ---------------------------------------------------------------- recovery without discipline

  /** The step-less recovery pass takes up an operation that has a step. */
  function UndisciplinedRun(): seq<Input> {
    [Input(ClaimParent(Create()), false),
     Input(AcquireRecoveryLease(Key, "a", 5, 35), false),
     Input(Abort(RecoveryLease, 5), false)]
  }

  lemma StepRecoveryLeased(s: State)
    requires OneStep(s, Validated, EffectNotStarted, false, None) && s.locks == map[] && Fence(s, Key) == 0
    requires s.operations["a"].verdict.status == Validated
    ensures Recoverable(s, "a", 5)
    ensures var t := Next(s, AcquireRecoveryLease(Key, "a", 5, 35), false);
            OneStep(t, Validated, EffectNotStarted, false, None) && t.locks == map[Key := RecoveryLease]
            && t.operations["a"].verdict.status == Validated
  {
  }

  lemma ParentAborted(s: State)
    requires OneStep(s, Validated, EffectNotStarted, false, None) && s.locks == map[Key := RecoveryLease]
    requires s.operations["a"].verdict.status == Validated
    ensures !Disciplined(s, Abort(RecoveryLease, 5))
    ensures var t := Next(s, Abort(RecoveryLease, 5), false);
            && "a" in t.operations && t.operations["a"].verdict.status == Rejected
            && "step" in t.steps && t.steps["step"].parentId == "a" && t.steps["step"].verdict.status == Validated
  {
    hide MakeEvent;
    assert "step" in StepsOf(s, "a");
  }

  /** It leaves a REJECTED parent over a VALIDATED step. */
  lemma UndisciplinedRecovery()
    ensures !GoodRun(UndisciplinedRun())
    ensures var s := StateAt(UndisciplinedRun(), 3);
            && "a" in s.operations && s.operations["a"].verdict.status == Rejected
            && "step" in s.steps && s.steps["step"].parentId == "a" && s.steps["step"].verdict.status == Validated
  {
    hide Next, Abort, Create, OneStep, Recoverable;
    var run := UndisciplinedRun();
    assert StateAt(run, 0) == EmptyState;
    Unfold(run, 0);
    StepCreated();
    ParentCreated();
    Unfold(run, 1);
    StepRecoveryLeased(StateAt(run, 1));
    Unfold(run, 2);
    ParentAborted(StateAt(run, 2));
  }

  lemma ParentCreated()
    ensures var t := Next(EmptyState, ClaimParent(Create()), false);
            "a" in t.operations && t.operations["a"].verdict.status == Validated
  {
    hide ClaimKeys.ClaimKey, MakeEvent;
    assert "application:" + "app" == Key;
  }
}
