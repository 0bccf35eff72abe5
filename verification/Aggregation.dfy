/** How a parent operation's state is derived from its child steps. */
module Aggregation {
  import opened Basics
  import opened ActionStatuses

  /** The part of a step the aggregation reads. */
  datatype Verdict = Verdict(
    status: ActionStatus,
    verification: VerificationState,
    recovery: RecoveryState,
    effect: ExternalEffect,
    reason: Option<string>)

  /** `steps.find(step => step.status === status)`. */
  function FirstWith(steps: seq<Verdict>, status: ActionStatus): (r: Option<Verdict>)
    ensures r.Some? <==> exists i :: 0 <= i < |steps| && steps[i].status == status
    ensures r.Some? ==> r.value in steps && r.value.status == status
  {
    if steps == [] then None
    else if steps[0].status == status then Some(steps[0])
    else FirstWith(steps[1..], status)
  }

  /** `steps.find(step => !isTerminalActionStatus(step.status))`. */
  function FirstUnfinished(steps: seq<Verdict>): (r: Option<Verdict>)
    ensures r.Some? <==> exists i :: 0 <= i < |steps| && !IsTerminal(steps[i].status)
    ensures r.Some? ==> r.value in steps && !IsTerminal(r.value.status)
  {
    if steps == [] then None
    else if !IsTerminal(steps[0].status) then Some(steps[0])
    else FirstUnfinished(steps[1..])
  }

  predicate AllHave(steps: seq<Verdict>, status: ActionStatus) {
    forall i :: 0 <= i < |steps| ==> steps[i].status == status
  }

  predicate SomeEffect(steps: seq<Verdict>, effect: ExternalEffect) {
    exists i :: 0 <= i < |steps| && steps[i].effect == effect
  }

  function AggregateEffect(steps: seq<Verdict>): ExternalEffect {
    if SomeEffect(steps, EffectPossiblyActive) then EffectPossiblyActive
    else if SomeEffect(steps, EffectCompleted) then EffectCompleted
    else EffectNotStarted
  }

  /** The parent's state, read off its steps in sequence order. */
  function AggregateParent(steps: seq<Verdict>): Verdict
    requires steps != []
  {
    var effect := AggregateEffect(steps);
    var uncertain := FirstWith(steps, Indeterminate);
    if uncertain.Some? then
      Verdict(Indeterminate, VerificationUnknown, OutcomeUnknown, effect, uncertain.value.reason)
    else if AllHave(steps, Succeeded) then
      Verdict(Succeeded, Verified, RecoveryNone, effect, None)
    else
      var active := FirstUnfinished(steps);
      if active.Some? then active.value.(effect := effect)
      else
        var rejected := FirstWith(steps, Rejected);
        if rejected.Some? && AllHave(steps, Rejected) then rejected.value.(effect := effect)
        else
          var timedOut := FirstWith(steps, TimedOut);
          if timedOut.Some? then timedOut.value.(effect := effect)
          else
            var failed := FirstWith(steps, Failed);
            var cancelled := FirstWith(steps, Cancelled);
            var chosen := if failed.Some? then failed else if cancelled.Some? then cancelled else rejected;
            match chosen
            case Some(v) => v.(status := Failed, effect := effect)
            case None => Verdict(Failed, VerificationFailed, RecoveryNone, effect, Some("EXECUTION_FAILED"))
  }

  // ---------------------------------------------------------------- finished parents

  /** The parent is finished exactly when a child is quarantined or every child is finished. */
  lemma ParentFinishedIff(steps: seq<Verdict>)
    requires steps != []
    ensures IsTerminal(AggregateParent(steps).status) <==>
            (exists i :: 0 <= i < |steps| && steps[i].status == Indeterminate)
            || (forall i :: 0 <= i < |steps| ==> IsTerminal(steps[i].status))
  {
    assert AllHave(steps, Succeeded) ==> IsTerminal(steps[0].status);
  }

  /** What a finished parent's status says about its children. */
  lemma FinishedStatusMeans(steps: seq<Verdict>)
    requires steps != []
    requires forall i :: 0 <= i < |steps| ==> IsTerminal(steps[i].status)
    ensures AggregateParent(steps).status == Succeeded <==> AllHave(steps, Succeeded)
    ensures AggregateParent(steps).status == Rejected <==> AllHave(steps, Rejected)
    ensures AggregateParent(steps).status == Indeterminate <==>
            exists i :: 0 <= i < |steps| && steps[i].status == Indeterminate
    ensures AggregateParent(steps).status == TimedOut <==>
            (exists i :: 0 <= i < |steps| && steps[i].status == TimedOut)
            && !(exists i :: 0 <= i < |steps| && steps[i].status == Indeterminate)
  {
    assert FirstUnfinished(steps) == None;
    assert steps[0].status in {Succeeded, Rejected, Failed, TimedOut, Cancelled, Indeterminate};
    if AllHave(steps, Rejected) { assert FirstWith(steps, Rejected).Some?; }
    var r := FirstWith(steps, TimedOut);
    if r.Some? { assert !AllHave(steps, Rejected) && !AllHave(steps, Succeeded); }
  }

  /** Which children speak for the parent before which others. */
  function Weight(s: ActionStatus): nat {
    match s
    case Indeterminate => 0
    case TimedOut => 2
    case Failed => 3
    case Cancelled => 4
    case Rejected => 5
    case Succeeded => 6
    case _ => 1
  }

  /** The first of the weightiest children. */
  ghost predicate Speaks(steps: seq<Verdict>, k: nat) {
    && k < |steps|
    && (forall j :: 0 <= j < |steps| ==> Weight(steps[k].status) <= Weight(steps[j].status))
    && (forall j :: 0 <= j < k ==> Weight(steps[k].status) < Weight(steps[j].status))
  }

  /** What the child that speaks makes of the parent, given the other children. */
  ghost predicate SpeaksFor(steps: seq<Verdict>, k: nat, parent: Verdict)
    requires k < |steps|
  {
    var v := steps[k];
    match v.status
    case Indeterminate =>
      parent.status == Indeterminate && parent.verification == VerificationUnknown && parent.recovery == OutcomeUnknown && parent.reason == v.reason
    case Succeeded =>
      parent.status == Succeeded && parent.verification == Verified && parent.recovery == RecoveryNone && parent.reason == None
    case _ =>
      && parent.verification == v.verification && parent.recovery == v.recovery && parent.reason == v.reason
      && parent.status == if v.status == Cancelled || (v.status == Rejected && !AllHave(steps, Rejected)) then Failed else v.status
  }

  lemma {:induction false} FirstWithSpeaks(steps: seq<Verdict>, status: ActionStatus) returns (k: nat)
    requires IsTerminal(status) && FirstWith(steps, status).Some?
    requires forall j :: 0 <= j < |steps| ==> Weight(status) <= Weight(steps[j].status)
    ensures Speaks(steps, k) && FirstWith(steps, status) == Some(steps[k])
  {
    k := 0;
    if steps[0].status != status {
      var rest := FirstWithSpeaks(steps[1..], status);
      k := rest + 1;
      assert forall j :: 0 < j < |steps| ==> steps[1..][j - 1] == steps[j];
    }
  }

  lemma {:induction false} FirstUnfinishedSpeaks(steps: seq<Verdict>) returns (k: nat)
    requires FirstUnfinished(steps).Some?
    requires forall j :: 0 <= j < |steps| ==> 1 <= Weight(steps[j].status)
    ensures Speaks(steps, k) && FirstUnfinished(steps) == Some(steps[k])
  {
    k := 0;
    if IsTerminal(steps[0].status) {
      var rest := FirstUnfinishedSpeaks(steps[1..]);
      k := rest + 1;
      assert forall j :: 0 < j < |steps| ==> steps[1..][j - 1] == steps[j];
    }
  }

  /** The parent takes its status, verification, recovery and reason from the first of its weightiest children. */
  lemma VerdictFromOneChild(steps: seq<Verdict>) returns (k: nat)
    requires steps != []
    ensures Speaks(steps, k) && SpeaksFor(steps, k, AggregateParent(steps))
  {
    if FirstWith(steps, Indeterminate).Some? {
      k := FirstWithSpeaks(steps, Indeterminate);
    } else if AllHave(steps, Succeeded) {
      k := 0;
    } else if FirstUnfinished(steps).Some? {
      k := FirstUnfinishedSpeaks(steps);
    } else {
      var status := DecidingStatus(steps);
      k := FirstWithSpeaks(steps, status);
    }
  }

  /** Among finished children, none of them uncertain and not all successful, the status that decides. */
  lemma DecidingStatus(steps: seq<Verdict>) returns (status: ActionStatus)
    requires steps != [] && !AllHave(steps, Succeeded)
    requires FirstWith(steps, Indeterminate).None? && FirstUnfinished(steps).None?
    ensures status in {TimedOut, Failed, Cancelled, Rejected} && FirstWith(steps, status).Some?
    ensures forall j :: 0 <= j < |steps| ==> Weight(status) <= Weight(steps[j].status)
    ensures var v := FirstWith(steps, status).value;
            AggregateParent(steps).(effect := v.effect) ==
              if status == Cancelled || (status == Rejected && !AllHave(steps, Rejected)) then v.(status := Failed) else v
  {
    status :=
      if FirstWith(steps, TimedOut).Some? then TimedOut
      else if FirstWith(steps, Failed).Some? then Failed
      else if FirstWith(steps, Cancelled).Some? then Cancelled
      else Rejected;
  }

  // ---------------------------------------------------------------- the effect lattice

  /** NOT_STARTED below COMPLETED below EFFECT_POSSIBLY_ACTIVE. */
  function EffectRank(e: ExternalEffect): nat {
    match e
    case EffectNotStarted => 0
    case EffectCompleted => 1
    case EffectPossiblyActive => 2
  }

  /** The parent's effect is the least upper bound of its children's effects. */
  lemma EffectIsMaximum(steps: seq<Verdict>)
    requires steps != []
    ensures forall i :: 0 <= i < |steps| ==>
              EffectRank(steps[i].effect) <= EffectRank(AggregateParent(steps).effect)
    ensures exists i :: 0 <= i < |steps| && steps[i].effect == AggregateParent(steps).effect
  {
    assert AggregateParent(steps).effect == AggregateEffect(steps);
    assert steps[0].effect in {EffectNotStarted, EffectCompleted, EffectPossiblyActive};
    forall i | 0 <= i < |steps|
      ensures EffectRank(steps[i].effect) <= EffectRank(AggregateEffect(steps))
    {
      assert SomeEffect(steps, steps[i].effect);
    }
  }

  // ---------------------------------------------------------------- order of the children

  predicate Permutation(a: seq<Verdict>, b: seq<Verdict>) {
    multiset(a) == multiset(b)
  }

  lemma SameMembers(a: seq<Verdict>, b: seq<Verdict>)
    requires Permutation(a, b)
    ensures |a| == |b| && forall v :: v in a <==> v in b
  {
    assert |multiset(a)| == |a| && |multiset(b)| == |b|;
    forall v ensures v in a <==> v in b {
      assert v in a <==> v in multiset(a);
      assert v in b <==> v in multiset(b);
    }
  }

  lemma OneWayAgreement(a: seq<Verdict>, b: seq<Verdict>)
    requires forall v :: v in a ==> v in b
    ensures forall s :: FirstWith(a, s).Some? ==> FirstWith(b, s).Some?
    ensures FirstUnfinished(a).Some? ==> FirstUnfinished(b).Some?
    ensures forall s :: AllHave(b, s) ==> AllHave(a, s)
    ensures forall e :: SomeEffect(a, e) ==> SomeEffect(b, e)
  {
    forall s | FirstWith(a, s).Some? ensures FirstWith(b, s).Some? {
      assert FirstWith(a, s).value in b;
    }
    if FirstUnfinished(a).Some? { assert FirstUnfinished(a).value in b; }
    forall s | AllHave(b, s) ensures AllHave(a, s) {
      forall i | 0 <= i < |a| ensures a[i].status == s { assert a[i] in b; }
    }
    forall e | SomeEffect(a, e) ensures SomeEffect(b, e) {
      var i :| 0 <= i < |a| && a[i].effect == e;
      assert a[i] in b;
    }
  }

  /** All unfinished steps have the same status. */
  ghost predicate UnfinishedAgree(steps: seq<Verdict>) {
    forall i, j :: 0 <= i < |steps| && 0 <= j < |steps|
                   && !IsTerminal(steps[i].status) && !IsTerminal(steps[j].status)
                   ==> steps[i].status == steps[j].status
  }

  ghost predicate OrderFree(steps: seq<Verdict>)
    requires steps != []
  {
    forall p: seq<Verdict> :: Permutation(steps, p) && p != [] ==>
      AggregateParent(p).status == AggregateParent(steps).status
  }

  /** The effect never depends on the order of the children. */
  lemma EffectOrderFree(a: seq<Verdict>, b: seq<Verdict>)
    requires a != [] && b != [] && Permutation(a, b)
    ensures AggregateParent(a).effect == AggregateParent(b).effect
  {
    SameMembers(a, b);
    OneWayAgreement(a, b);
    OneWayAgreement(b, a);
    EffectIsAggregate(a);
    EffectIsAggregate(b);
    hide FirstWith, FirstUnfinished, AllHave, SomeEffect, AggregateParent, Permutation;
  }

  lemma EffectIsAggregate(steps: seq<Verdict>)
    requires steps != []
    ensures AggregateParent(steps).effect == AggregateEffect(steps)
  {
  }

  lemma StatusOrderFree(a: seq<Verdict>, b: seq<Verdict>)
    requires a != [] && b != [] && Permutation(a, b)
    requires FirstWith(a, Indeterminate).Some? || UnfinishedAgree(a)
    ensures AggregateParent(a).status == AggregateParent(b).status
  {
    SameMembers(a, b);
    OneWayAgreement(a, b);
    OneWayAgreement(b, a);
    if FirstUnfinished(a).Some? && FirstWith(a, Indeterminate).None? {
      var x, y := FirstUnfinished(a).value, FirstUnfinished(b).value;
      assert y in a;
      assert x.status == y.status;
      assert !AllHave(a, Succeeded) && !AllHave(b, Succeeded);
    }
  }

  /** Bringing the step at `i` to the front is a permutation. */
  lemma Promote(steps: seq<Verdict>, i: nat) returns (p: seq<Verdict>)
    requires i < |steps|
    ensures Permutation(steps, p) && p != [] && p[0] == steps[i]
  {
    p := [steps[i]] + (steps[..i] + steps[i + 1..]);
    assert steps == steps[..i] + ([steps[i]] + steps[i + 1..]);
  }

  /**
   * Exactly when the parent's status is independent of the order of its children:
   * a quarantined child decides alone, or all unfinished children share one status.
   */
  lemma StatusOrderFreeIff(steps: seq<Verdict>)
    requires steps != []
    ensures OrderFree(steps) <==> FirstWith(steps, Indeterminate).Some? || UnfinishedAgree(steps)
  {
    if FirstWith(steps, Indeterminate).Some? || UnfinishedAgree(steps) {
      forall p: seq<Verdict> | Permutation(steps, p) && p != []
        ensures AggregateParent(p).status == AggregateParent(steps).status
      {
        StatusOrderFree(steps, p);
      }
    } else {
      var i, j :| 0 <= i < |steps| && 0 <= j < |steps|
                  && !IsTerminal(steps[i].status) && !IsTerminal(steps[j].status)
                  && steps[i].status != steps[j].status;
      var p := Promote(steps, i);
      var q := Promote(steps, j);
      PromotedDecides(steps, p);
      PromotedDecides(steps, q);
    }
  }

  lemma PromotedDecides(steps: seq<Verdict>, p: seq<Verdict>)
    requires steps != [] && p != [] && Permutation(steps, p)
    requires FirstWith(steps, Indeterminate).None? && !IsTerminal(p[0].status)
    ensures AggregateParent(p).status == p[0].status
  {
    SameMembers(steps, p);
    OneWayAgreement(p, steps);
    assert !AllHave(p, Succeeded);
    assert FirstUnfinished(p) == Some(p[0]);
  }

  // ---------------------------------------------------------------- one child

  /** With one child the parent copies it, except that three final statuses fix other fields. */
  function SoleVerdict(v: Verdict): Verdict {
    match v.status
    case Indeterminate => v.(verification := VerificationUnknown, recovery := OutcomeUnknown)
    case Succeeded => v.(verification := Verified, recovery := RecoveryNone, reason := None)
    case Cancelled => v.(status := Failed)
    case _ => v
  }

  lemma SoleChild(v: Verdict)
    ensures AggregateParent([v]) == SoleVerdict(v)
  {
    var steps := [v];
    assert steps[0] == v && steps[1..] == [];
    assert SomeEffect(steps, v.effect);
    assert AggregateEffect(steps) == v.effect;
    assert forall s :: FirstWith(steps, s) == if v.status == s then Some(v) else None;
    assert FirstUnfinished(steps) == if IsTerminal(v.status) then None else Some(v);
    assert forall s :: AllHave(steps, s) <==> v.status == s;
  }
}
