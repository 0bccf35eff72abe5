/**
 * The START, STOP and RESTART handlers of the runtime adapter, as programs whose
 * Docker calls are recorded in a trace and answered by an arbitrary environment.
 */
module Lifecycle {
  import opened Basics
  import opened Resolver

  /** One Docker call on a container, with its answer; `ours` says that a start failed with the adapter's own error. */
  datatype Event =
    | Start(id: string, started: bool, ours: bool)
    | Stop(id: string, stopped: bool)
    | Inspect(id: string, found: Option<ExecutionState>)

  datatype Request = StartRequest(id: string) | StopRequest(id: string) | InspectRequest(id: string)

  /** How a call fails: with the adapter's own error, or with another one. */
  datatype Answer = Succeeded | AdapterFailure | OtherFailure | Found(state: ExecutionState)

  datatype LifecycleError =
    | ResolutionFailed(error: ResolverError)
    | ListingFailed
    | DeadlineExceeded
    | DockerError
    | ActionRejected
    | StopVerificationFailed
    | StartVerificationFailed
    | RestartVerificationFailed

  /** Docker, answering each call as a function of everything that happened before. */
  class Docker {
    var trace: seq<Event>
    const answers: (seq<Event>, Request) -> Answer
    const aborted: seq<Event> -> bool
    const listing: seq<Event> -> Option<seq<Container>>

    constructor (answers: (seq<Event>, Request) -> Answer, aborted: seq<Event> -> bool, listing: seq<Event> -> Option<seq<Container>>)
      ensures trace == [] && this.answers == answers && this.aborted == aborted && this.listing == listing && Genuine()
    {
      trace := [];
      this.answers := answers;
      this.aborted := aborted;
      this.listing := listing;
    }

    /** The event shows what Docker answers after `before`. */
    ghost predicate Shows(before: seq<Event>, e: Event) {
      match e
      case Start(id, started, ours) =>
        var answer := answers(before, StartRequest(id));
        started == (answer == Succeeded) && ours == (answer == AdapterFailure)
      case Stop(id, stopped) => stopped == (answers(before, StopRequest(id)) == Succeeded)
      case Inspect(id, found) =>
        var answer := answers(before, InspectRequest(id));
        found == if answer.Found? then Some(answer.state) else None
    }

    /** Every recorded call was made, and answered as recorded. */
    ghost predicate Genuine()
      reads this
    {
      forall k :: 0 <= k < |trace| ==> Shows(trace[..k], trace[k])
    }

    lemma OneCallMore(before: seq<Event>, e: Event)
      requires (forall k :: 0 <= k < |before| ==> Shows(before[..k], before[k])) && Shows(before, e)
      ensures forall k :: 0 <= k < |before + [e]| ==> Shows((before + [e])[..k], (before + [e])[k])
    {
      forall k | 0 <= k < |before + [e]| ensures Shows((before + [e])[..k], (before + [e])[k]) {
        assert (before + [e])[..k] == before[..k];
        if k == |before| { assert before[..k] == before; }
      }
    }

    method StartContainer(id: string) returns (r: Answer)
      requires Genuine()
      modifies this
      ensures r == answers(old(trace), StartRequest(id)) && trace == old(trace) + [Start(id, r == Succeeded, r == AdapterFailure)] && Genuine()
    {
      r := answers(trace, StartRequest(id));
      OneCallMore(trace, Start(id, r == Succeeded, r == AdapterFailure));
      trace := trace + [Start(id, r == Succeeded, r == AdapterFailure)];
    }

    method StopContainer(id: string) returns (r: Answer)
      requires Genuine()
      modifies this
      ensures r == answers(old(trace), StopRequest(id)) && trace == old(trace) + [Stop(id, r == Succeeded)] && Genuine()
    {
      r := answers(trace, StopRequest(id));
      OneCallMore(trace, Stop(id, r == Succeeded));
      trace := trace + [Stop(id, r == Succeeded)];
    }

    method InspectContainer(id: string) returns (r: Option<ExecutionState>)
      requires Genuine()
      modifies this
      ensures trace == old(trace) + [Inspect(id, r)] && Genuine()
    {
      var answer := answers(trace, InspectRequest(id));
      r := if answer.Found? then Some(answer.state) else None;
      OneCallMore(trace, Inspect(id, r));
      trace := trace + [Inspect(id, r)];
    }
  }

  // ---------------------------------------------------------------- shapes of traces

  /** Every target is stopped once, in reverse order. */
  ghost predicate ReverseStops(s: seq<Event>, targets: seq<Target>) {
    && |s| == |targets|
    && forall k :: 0 <= k < |s| ==> s[k].Stop? && s[k].id == targets[|targets| - 1 - k].containerId
  }

  /** Targets are started in order, up to and including the first failure. */
  ghost predicate ForwardStarts(s: seq<Event>, targets: seq<Target>) {
    && |s| <= |targets|
    && (forall k :: 0 <= k < |s| ==> s[k].Start? && s[k].id == targets[k].containerId)
    && (forall k :: 0 <= k < |s| - 1 ==> s[k].started)
  }

  /** The last start failed. */
  ghost predicate CutShort(s: seq<Event>) {
    s != [] && s[|s| - 1].Start? && !s[|s| - 1].started
  }

  /** Why the starts ended early: the adapter's own error is passed on, any other is a rejection. */
  ghost function StartFault(s: seq<Event>): LifecycleError {
    if CutShort(s) then if s[|s| - 1].ours then DockerError else ActionRejected
    else DeadlineExceeded
  }

  ghost predicate Inspections(s: seq<Event>, targets: seq<Target>) {
    && |s| == |targets|
    && forall k :: 0 <= k < |s| ==> s[k].Inspect? && s[k].id == targets[k].containerId
  }

  ghost predicate AllStopped(s: seq<Event>) {
    forall k :: 0 <= k < |s| ==> s[k].Stop? && s[k].stopped
  }

  ghost predicate AllStarted(s: seq<Event>, targets: seq<Target>) {
    ForwardStarts(s, targets) && |s| == |targets| && forall k :: 0 <= k < |s| ==> s[k].started
  }

  /** Container ids name containers: no two targets share one. */
  ghost predicate DistinctIds(targets: seq<Target>) {
    forall i, j :: 0 <= i < j < |targets| ==> targets[i].containerId != targets[j].containerId
  }

  /** The newest successful inspection of each container. */
  function Latest(s: seq<Event>): map<string, ExecutionState> {
    if s == [] then map[]
    else
      var last, before := s[|s| - 1], Latest(s[..|s| - 1]);
      if last.Inspect? && last.found.Some? then before[last.id := last.found.value] else before
  }

  /** Every target's newest inspection shows it running. */
  ghost predicate AllRunning(s: seq<Event>, targets: seq<Target>) {
    forall t :: t in targets ==> t.containerId in Latest(s) && Latest(s)[t.containerId] == RunningState
  }

  predicate IsUp(state: ExecutionState) {
    state == RunningState || state == RestartingState
  }

  /** No target's newest inspection shows it running or restarting. */
  ghost predicate NoneUp(s: seq<Event>, targets: seq<Target>) {
    forall t :: t in targets && t.containerId in Latest(s) ==> !IsUp(Latest(s)[t.containerId])
  }

  ghost predicate NoneRunning(s: seq<Event>, targets: seq<Target>) {
    forall t :: t in targets && t.containerId in Latest(s) ==> Latest(s)[t.containerId] != RunningState
  }

  lemma {:induction false} LatestIsShown(s: seq<Event>, id: string)
    requires id in Latest(s)
    ensures Inspect(id, Some(Latest(s)[id])) in s
  {
    var last, front := s[|s| - 1], s[..|s| - 1];
    assert s == front + [last];
    if !(last.Inspect? && last.found.Some? && last.id == id) {
      LatestIsShown(front, id);
    }
  }

  lemma {:induction false} OnlyInspection(s: seq<Event>, k: nat)
    requires k < |s| && s[k].Inspect? && s[k].found.Some?
    requires forall j :: k < j < |s| ==> s[j].id != s[k].id
    ensures s[k].id in Latest(s) && Latest(s)[s[k].id] == s[k].found.value
  {
    if k < |s| - 1 {
      OnlyInspection(s[..|s| - 1], k);
    }
  }

  /** A start gate that opened saw no container up at all. */
  lemma GateSawNothingUp(gate: seq<Event>, targets: seq<Target>)
    requires Inspections(gate, targets) && DistinctIds(targets) && NoneUp(gate, targets)
    ensures forall k :: 0 <= k < |gate| && gate[k].found.Some? ==> !IsUp(gate[k].found.value)
  {
    forall k | 0 <= k < |gate| && gate[k].found.Some? ensures !IsUp(gate[k].found.value) {
      OnlyInspection(gate, k);
      assert targets[k] in targets;
    }
  }

  /** Success rests on an inspection that showed each target running. */
  lemma EveryTargetSeenRunning(final: seq<Event>, targets: seq<Target>)
    requires AllRunning(final, targets)
    ensures forall t :: t in targets ==> Inspect(t.containerId, Some(RunningState)) in final
  {
    forall t | t in targets ensures Inspect(t.containerId, Some(RunningState)) in final {
      LatestIsShown(final, t.containerId);
    }
  }

  // ---------------------------------------------------------------- the loops

  lemma OneStopMore(s: seq<Event>, e: Event)
    ensures AllStopped(s + [e]) <==> AllStopped(s) && e.Stop? && e.stopped
  {
    if AllStopped(s + [e]) {
      assert (s + [e])[|s|] == e;
      assert forall k :: 0 <= k < |s| ==> (s + [e])[k] == s[k];
    }
  }

  /** Reverse-order, best-effort. */
  method StopAll(docker: Docker, targets: seq<Target>) returns (failures: seq<string>, ghost s: seq<Event>)
    requires docker.Genuine()
    modifies docker
    ensures docker.Genuine() && docker.trace == old(docker.trace) + s && ReverseStops(s, targets)
    ensures failures == [] <==> AllStopped(s)
  {
    failures, s := [], [];
    var n := |targets|;
    for k := 0 to n
      invariant docker.Genuine() && docker.trace == old(docker.trace) + s && |s| == k
      invariant forall j :: 0 <= j < k ==> s[j].Stop? && s[j].id == targets[n - 1 - j].containerId
      invariant failures == [] <==> AllStopped(s)
    {
      var target := targets[n - 1 - k];
      var answer := docker.StopContainer(target.containerId);
      OneStopMore(s, Stop(target.containerId, answer == Succeeded));
      s := s + [Stop(target.containerId, answer == Succeeded)];
      if answer != Succeeded { failures := failures + [target.containerId]; }
    }
  }

  /** Forward-order, fail-fast. */
  method StartAll(docker: Docker, targets: seq<Target>) returns (error: Option<LifecycleError>, ghost s: seq<Event>)
    requires docker.Genuine()
    modifies docker
    ensures docker.Genuine() && docker.trace == old(docker.trace) + s && ForwardStarts(s, targets)
    ensures error.None? <==> AllStarted(s, targets)
    ensures error.Some? ==> error.value == StartFault(s)
    ensures error.Some? ==> CutShort(s) || docker.aborted(docker.trace)
  {
    s := [];
    for k := 0 to |targets|
      invariant docker.Genuine() && docker.trace == old(docker.trace) + s && |s| == k && ForwardStarts(s, targets)
      invariant forall j :: 0 <= j < k ==> s[j].started
    {
      if docker.aborted(docker.trace) { return Some(DeadlineExceeded), s; }
      var answer := docker.StartContainer(targets[k].containerId);
      s := s + [Start(targets[k].containerId, answer == Succeeded, answer == AdapterFailure)];
      if answer != Succeeded {
        assert !s[k].started;
        return Some(if answer == AdapterFailure then DockerError else ActionRejected), s;
      }
    }
    error := None;
  }

  lemma NothingInspected(targets: seq<Target>)
    ensures Inspections([], targets[..0]) && Latest([]) == map[]
  {
  }

  lemma {:induction false} OneInspectionMore(s: seq<Event>, targets: seq<Target>, found: Option<ExecutionState>)
    requires |s| < |targets| && Inspections(s, targets[..|s|])
    ensures Inspections(s + [Inspect(targets[|s|].containerId, found)], targets[..|s| + 1])
  {
    var more := s + [Inspect(targets[|s|].containerId, found)];
    forall k | 0 <= k < |more| ensures more[k].Inspect? && more[k].id == targets[k].containerId {
      if k < |s| { assert targets[..|s|][k] == targets[k]; }
    }
  }

  lemma {:induction false} LatestInspection(s: seq<Event>, id: string, found: Option<ExecutionState>)
    ensures Latest(s + [Inspect(id, found)]) == if found.Some? then Latest(s)[id := found.value] else Latest(s)
  {
    var more := s + [Inspect(id, found)];
    assert more[..|more| - 1] == s;
  }

  method InspectAll(docker: Docker, targets: seq<Target>) returns (results: map<string, ExecutionState>, ghost s: seq<Event>)
    requires docker.Genuine()
    modifies docker
    ensures docker.Genuine() && docker.trace == old(docker.trace) + s && Inspections(s, targets)
    ensures results == Latest(s)
  {
    hide Inspections, Latest;
    results, s := map[], [];
    NothingInspected(targets);
    for k := 0 to |targets|
      invariant docker.Genuine() && docker.trace == old(docker.trace) + s && |s| == k && Inspections(s, targets[..k])
      invariant results == Latest(s)
    {
      var found := docker.InspectContainer(targets[k].containerId);
      OneInspectionMore(s, targets, found);
      LatestInspection(s, targets[k].containerId, found);
      s := s + [Inspect(targets[k].containerId, found)];
      if found.Some? { results := results[targets[k].containerId := found.value]; }
    }
    assert targets[..|targets|] == targets;
  }

  // ---------------------------------------------------------------- the handlers

  /** Lists the containers and resolves them into targets. */
  method Prepare(docker: Docker, compare: (string, string) -> int, app: string, deployment: string, services: seq<Service>)
    returns (r: Result<seq<Target>, LifecycleError>)
    requires TotalOrder(compare)
    ensures match docker.listing(docker.trace)
            case None => r == Err(ListingFailed)
            case Some(observed) =>
              match r
              case Ok(targets) => Resolution(compare, app, deployment, services, observed, Ok(targets))
              case Err(e) => e.ResolutionFailed? && Resolution(compare, app, deployment, services, observed, Err(e.error))
  {
    hide TotalOrder, Resolution;
    var observed := docker.listing(docker.trace);
    if observed.None? { return Err(ListingFailed); }
    var resolved := ResolveTargets(compare, app, deployment, services, observed.value);
    match resolved
    case Ok(targets) => r := Ok(targets);
    case Err(error) => r := Err(ResolutionFailed(error));
  }

  method HandleStart(docker: Docker, targets: seq<Target>)
    returns (error: Option<LifecycleError>, ghost starts: seq<Event>, ghost final: seq<Event>)
    requires docker.Genuine()
    modifies docker
    ensures docker.Genuine() && docker.trace == old(docker.trace) + starts + final
    ensures ForwardStarts(starts, targets)
    ensures if AllStarted(starts, targets) then Inspections(final, targets) else final == []
    ensures error.None? <==> AllStarted(starts, targets) && AllRunning(final, targets)
    ensures error.Some? ==> error.value == if AllStarted(starts, targets) then StartVerificationFailed else StartFault(starts)
    ensures !AllStarted(starts, targets) ==> CutShort(starts) || docker.aborted(docker.trace)
  {
    final := [];
    error, starts := StartAll(docker, targets);
    if error.Some? {
      return;
    }
    var inspections;
    inspections, final := InspectAll(docker, targets);
    if exists t :: t in targets && (t.containerId !in inspections || inspections[t.containerId] != RunningState) {
      error := Some(StartVerificationFailed);
    }
  }

  method HandleStop(docker: Docker, targets: seq<Target>)
    returns (error: Option<LifecycleError>, ghost stops: seq<Event>, ghost final: seq<Event>)
    requires docker.Genuine()
    modifies docker
    ensures docker.Genuine() && docker.trace == old(docker.trace) + stops + final
    ensures ReverseStops(stops, targets)
    ensures if AllStopped(stops) then Inspections(final, targets) else final == []
    ensures error.None? <==> AllStopped(stops) && NoneRunning(final, targets)
    ensures error.Some? ==> error.value == StopVerificationFailed
  {
    final := [];
    var failures;
    failures, stops := StopAll(docker, targets);
    if failures != [] {
      return Some(StopVerificationFailed), stops, [];
    }
    var inspections;
    inspections, final := InspectAll(docker, targets);
    error := None;
    if exists t :: t in targets && t.containerId in inspections && inspections[t.containerId] == RunningState {
      error := Some(StopVerificationFailed);
    }
  }

  /** Nothing is started unless every stop succeeded and the gate saw nothing up. */
  method HandleRestart(docker: Docker, targets: seq<Target>)
    returns (error: Option<LifecycleError>, ghost stops: seq<Event>, ghost gate: seq<Event>, ghost starts: seq<Event>, ghost final: seq<Event>)
    requires docker.Genuine()
    modifies docker
    ensures docker.Genuine() && docker.trace == old(docker.trace) + stops + gate + starts + final
    ensures ReverseStops(stops, targets) && Inspections(gate, targets) && ForwardStarts(starts, targets)
    ensures starts != [] ==> AllStopped(stops) && NoneUp(gate, targets)
    ensures if AllStopped(stops) && NoneUp(gate, targets) && AllStarted(starts, targets) then Inspections(final, targets) else final == []
    ensures error.None? <==>
              AllStopped(stops) && NoneUp(gate, targets) && AllStarted(starts, targets) && AllRunning(final, targets)
    ensures error.Some? ==> error.value == if AllStopped(stops) && NoneUp(gate, targets) && !AllStarted(starts, targets)
                                           then StartFault(starts) else RestartVerificationFailed
    ensures AllStopped(stops) && NoneUp(gate, targets) && !AllStarted(starts, targets) ==>
              CutShort(starts) || docker.aborted(docker.trace)
  {
    starts, final := [], [];
    var failures, unstopped;
    failures, stops := StopAll(docker, targets);
    unstopped, gate := InspectAll(docker, targets);
    if failures != [] || exists t :: t in targets && t.containerId in unstopped && IsUp(unstopped[t.containerId]) {
      return Some(RestartVerificationFailed), stops, gate, [], [];
    }
    error, starts := StartAll(docker, targets);
    if error.Some? {
      return;
    }
    var inspections;
    inspections, final := InspectAll(docker, targets);
    if exists t :: t in targets && (t.containerId !in inspections || inspections[t.containerId] != RunningState) {
      error := Some(RestartVerificationFailed);
    }
  }
}
