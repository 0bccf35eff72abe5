/**
 * The adapter's per-application mutex, one request under it, and any interleaving
 * of requests: mutations of one application never overlap.
 */
module AdapterExclusion {
  import opened Basics
  import opened Resolver
  import opened Lifecycle

  datatype ActiveLock = ActiveLock(applicationId: string, requestId: string)

  class ApplicationMutationMutex {
    var locks: map<string, ActiveLock>

    constructor ()
      ensures locks == map[]
    {
      locks := map[];
    }

    /** False when another mutation of the application is under way. */
    method Acquire(app: string, requestId: string) returns (ok: bool)
      modifies this
      ensures ok == (app !in old(locks))
      ensures locks == if ok then old(locks)[app := ActiveLock(app, requestId)] else old(locks)
    {
      if app in locks { return false; }
      locks := locks[app := ActiveLock(app, requestId)];
      ok := true;
    }

    method Release(app: string)
      modifies this
      ensures locks == old(locks) - {app}
    {
      locks := locks - {app};
    }
  }

  // ---------------------------------------------------------------- one request

  /** The operations that take the mutex; reading requests bypass it. */
  datatype Operation = StartApplication | StopApplication | RestartApplication

  datatype Response = Done | OperationInProgress | Failed(error: LifecycleError)

  /** The Docker calls of one request, phase by phase. */
  datatype Phases = Phases(stops: seq<Event>, gate: seq<Event>, starts: seq<Event>, final: seq<Event>)

  const NoCalls := Phases([], [], [], [])

  function Calls(p: Phases): seq<Event> {
    p.stops + p.gate + p.starts + p.final
  }

  /** The targets are started in order, unless a start fails or the request is aborted. */
  ghost predicate StartsAll(starts: seq<Event>, targets: seq<Target>, aborted: bool) {
    ForwardStarts(starts, targets) && (AllStarted(starts, targets) || CutShort(starts) || aborted)
  }

  /** The calls an operation makes on its targets: which, in which order, and how far it gets. */
  ghost predicate Carries(operation: Operation, targets: seq<Target>, p: Phases, aborted: bool) {
    match operation
    case StartApplication =>
      && p.stops == [] && p.gate == [] && StartsAll(p.starts, targets, aborted)
      && (if AllStarted(p.starts, targets) then Inspections(p.final, targets) else p.final == [])
    case StopApplication =>
      && p.gate == [] && p.starts == [] && ReverseStops(p.stops, targets)
      && (if AllStopped(p.stops) then Inspections(p.final, targets) else p.final == [])
    case RestartApplication =>
      && ReverseStops(p.stops, targets) && Inspections(p.gate, targets)
      && (if AllStopped(p.stops) && NoneUp(p.gate, targets) then StartsAll(p.starts, targets, aborted) else p.starts == [])
      && (if AllStopped(p.stops) && NoneUp(p.gate, targets) && AllStarted(p.starts, targets)
          then Inspections(p.final, targets) else p.final == [])
  }

  /** Everything asked for was done, and then seen. */
  ghost predicate Achieved(operation: Operation, targets: seq<Target>, p: Phases) {
    match operation
    case StartApplication => AllStarted(p.starts, targets) && AllRunning(p.final, targets)
    case StopApplication => AllStopped(p.stops) && NoneRunning(p.final, targets)
    case RestartApplication =>
      AllStopped(p.stops) && NoneUp(p.gate, targets) && AllStarted(p.starts, targets) && AllRunning(p.final, targets)
  }

  /** The error of an operation that was not achieved: its verification, unless a start it came to was cut short. */
  ghost function Fault(operation: Operation, targets: seq<Target>, p: Phases): LifecycleError {
    match operation
    case StartApplication => if AllStarted(p.starts, targets) then StartVerificationFailed else StartFault(p.starts)
    case StopApplication => StopVerificationFailed
    case RestartApplication =>
      if AllStopped(p.stops) && NoneUp(p.gate, targets) && !AllStarted(p.starts, targets) then StartFault(p.starts)
      else RestartVerificationFailed
  }

  /** What a request that got the mutex answers, given the listing it saw, what the resolver made of it and whether it was aborted. */
  ghost predicate Answered(
    compare: (string, string) -> int, operation: Operation, app: string, deployment: string, services: seq<Service>,
    listing: Option<seq<Container>>, resolved: Result<seq<Target>, ResolverError>, aborted: bool, r: Response, p: Phases)
  {
    match listing
    case None => r == Failed(ListingFailed) && p == NoCalls
    case Some(observed) =>
      && Resolution(compare, app, deployment, services, observed, resolved)
      && match resolved
         case Err(error) => r == Failed(ResolutionFailed(error)) && p == NoCalls
         case Ok(targets) => Carries(operation, targets, p, aborted) && r == if Achieved(operation, targets, p) then Done else Failed(Fault(operation, targets, p))
  }

  /**
   * An admitted mutating request. However it ends, the mutex is left as it was found; a request
   * refused by the mutex makes no Docker call and leaves the holder's lock alone.
   */
  method Execute(
    docker: Docker, mutex: ApplicationMutationMutex, operation: Operation, compare: (string, string) -> int,
    app: string, deployment: string, services: seq<Service>)
    returns (r: Response, ghost resolved: Result<seq<Target>, ResolverError>, ghost p: Phases)
    requires TotalOrder(compare) && docker.Genuine()
    modifies docker, mutex
    ensures mutex.locks == old(mutex.locks) && (r == OperationInProgress <==> app in old(mutex.locks))
    ensures docker.Genuine() && docker.trace == old(docker.trace) + Calls(p)
    ensures if app in old(mutex.locks) then r == OperationInProgress && p == NoCalls
            else Answered(compare, operation, app, deployment, services, docker.listing(old(docker.trace)), resolved,
                          docker.aborted(docker.trace), r, p)
  {
    hide TotalOrder, Resolution, Carries, Achieved;
    resolved, p := Ok([]), NoCalls;
    assert docker.trace + Calls(NoCalls) == docker.trace;
    var acquired := mutex.Acquire(app, "unspecified");
    if !acquired { return OperationInProgress, resolved, p; }
    var prepared := Prepare(docker, compare, app, deployment, services);
    if prepared.Err? {
      r := Failed(prepared.error);
      if prepared.error.ResolutionFailed? { resolved := Err(prepared.error.error); }
    } else {
      resolved := Ok(prepared.value);
      r, p := Handle(docker, operation, prepared.value);
    }
    mutex.Release(app);
    assert old(mutex.locks)[app := ActiveLock(app, "unspecified")] - {app} == old(mutex.locks);
  }

  method Handle(docker: Docker, operation: Operation, targets: seq<Target>) returns (r: Response, ghost p: Phases)
    requires docker.Genuine()
    modifies docker
    ensures docker.Genuine() && docker.trace == old(docker.trace) + Calls(p) && Carries(operation, targets, p, docker.aborted(docker.trace))
    ensures r == if Achieved(operation, targets, p) then Done else Failed(Fault(operation, targets, p))
  {
    hide docker.Genuine, ForwardStarts, ReverseStops, Inspections, AllStarted, AllStopped, AllRunning, NoneRunning, NoneUp, CutShort;
    var error: Option<LifecycleError>;
    ghost var stops, gate, starts, final: seq<Event> := [], [], [], [];
    match operation {
      case StartApplication => error, starts, final := HandleStart(docker, targets);
      case StopApplication => error, stops, final := HandleStop(docker, targets);
      case RestartApplication => error, stops, gate, starts, final := HandleRestart(docker, targets);
    }
    p := Phases(stops, gate, starts, final);
    assert docker.trace == old(docker.trace) + Calls(p);
    r := if error.Some? then Failed(error.value) else Done;
  }

  /** A request that reports success found its targets, called Docker for each of them, and saw each of them last. */
  lemma DoneMeansSeen(
    compare: (string, string) -> int, operation: Operation, app: string, deployment: string, services: seq<Service>,
    listing: Option<seq<Container>>, resolved: Result<seq<Target>, ResolverError>, aborted: bool, p: Phases)
    requires Answered(compare, operation, app, deployment, services, listing, resolved, aborted, Done, p)
    ensures listing.Some? && resolved.Ok? && Resolution(compare, app, deployment, services, listing.value, resolved)
    ensures StandFor(resolved.value, listing.value, services)
    ensures var targets := resolved.value;
            && Inspections(p.final, targets)
            && (operation != StartApplication ==> ReverseStops(p.stops, targets) && AllStopped(p.stops))
            && (operation != StopApplication ==> |p.starts| == |targets| && AllStarted(p.starts, targets))
            && (operation != StopApplication ==> forall t :: t in targets ==> Inspect(t.containerId, Some(RunningState)) in p.final)
  {
    hide Resolution, StandFor;
    TargetsStandFor(compare, app, deployment, services, listing.value, resolved.value);
    if operation != StopApplication { EveryTargetSeenRunning(p.final, resolved.value); }
  }

  /** The last Docker call of the request is a start that failed. */
  ghost predicate EndsInFailedStart(calls: seq<Event>) {
    calls != [] && calls[|calls| - 1].Start? && !calls[|calls| - 1].started
  }

  lemma LastCall(operation: Operation, targets: seq<Target>, p: Phases, aborted: bool)
    requires Carries(operation, targets, p, aborted)
    ensures EndsInFailedStart(Calls(p)) <==> CutShort(p.starts)
    ensures CutShort(p.starts) ==> Calls(p)[|Calls(p)| - 1] == p.starts[|p.starts| - 1] && !AllStarted(p.starts, targets)
  {
    assert CutShort(p.starts) ==> !AllStarted(p.starts, targets);
  }

  /**
   * What the errors of a failed start tell: nothing was called after it, the adapter's own error is passed on
   * and any other is a rejection, and a missed deadline is reported only for an aborted request without one.
   */
  lemma ErrorTells(
    compare: (string, string) -> int, operation: Operation, app: string, deployment: string, services: seq<Service>,
    listing: Option<seq<Container>>, resolved: Result<seq<Target>, ResolverError>, aborted: bool, r: Response, p: Phases)
    requires Answered(compare, operation, app, deployment, services, listing, resolved, aborted, r, p)
    ensures r == Failed(DockerError) <==> EndsInFailedStart(Calls(p)) && Calls(p)[|Calls(p)| - 1].ours
    ensures r == Failed(ActionRejected) <==> EndsInFailedStart(Calls(p)) && !Calls(p)[|Calls(p)| - 1].ours
    ensures r == Failed(DeadlineExceeded) ==> aborted && !EndsInFailedStart(Calls(p))
  {
    hide Resolution;
    if listing.Some? && resolved.Ok? { LastCall(operation, resolved.value, p, aborted); }
  }

  /** A listed container that is labelled for this application and deployment. */
  predicate Belongs(c: Container, app: string, deployment: string) {
    && "zcc.application_id" in c.labels && c.labels["zcc.application_id"] == app
    && "zcc.deployment_id" in c.labels && c.labels["zcc.deployment_id"] == deployment
  }

  lemma TargetsBelong(
    compare: (string, string) -> int, app: string, deployment: string, services: seq<Service>, observed: seq<Container>, targets: seq<Target>, k: nat)
    requires Resolution(compare, app, deployment, services, observed, Ok(targets)) && k < |targets|
    ensures exists c :: c in observed && c.id == targets[k].containerId && Belongs(c, app, deployment)
  {
    TargetsStandFor(compare, app, deployment, services, observed, targets);
    ResolvedExpected(compare, app, deployment, services, observed, targets);
    hide Resolution, Origins, Describes, Expected;
    var origins: seq<Container> :| Origins(origins, observed) && Describe(targets, origins, services);
    OriginBelongs(origins, observed, app, deployment, services, k);
    NamesItsContainer(targets[k], origins[k], services);
  }

  lemma ResolvedExpected(
    compare: (string, string) -> int, app: string, deployment: string, services: seq<Service>, observed: seq<Container>, targets: seq<Target>)
    requires Resolution(compare, app, deployment, services, observed, Ok(targets))
    ensures forall c :: c in observed ==> Expected(c, app, deployment, Names(services))
  {
    hide StrictlyOrdered, TargetsOf, WellNumbered, Expected;
  }

  lemma NamesItsContainer(t: Target, c: Container, services: seq<Service>)
    requires Describes(t, c, services)
    ensures t.containerId == c.id
  {
  }

  lemma OriginBelongs(origins: seq<Container>, observed: seq<Container>, app: string, deployment: string, services: seq<Service>, k: nat)
    requires Origins(origins, observed) && k < |origins| && forall c :: c in observed ==> Expected(c, app, deployment, Names(services))
    ensures origins[k] in observed && Belongs(origins[k], app, deployment)
  {
    hide Names;
    assert multiset(origins)[origins[k]] > 0;
    assert origins[k] in multiset(observed);
  }

  /** Every call is about a target. */
  lemma CallsAddressTargets(operation: Operation, targets: seq<Target>, p: Phases, aborted: bool, e: Event)
    requires Carries(operation, targets, p, aborted) && e in Calls(p)
    ensures exists k :: 0 <= k < |targets| && e.id == targets[k].containerId
  {
    if e in p.stops {
      var k :| 0 <= k < |p.stops| && p.stops[k] == e;
      assert e.id == targets[|targets| - 1 - k].containerId;
    } else if e in p.gate {
      var k :| 0 <= k < |p.gate| && p.gate[k] == e;
      assert e.id == targets[k].containerId;
    } else if e in p.starts {
      var k :| 0 <= k < |p.starts| && p.starts[k] == e;
      assert e.id == targets[k].containerId;
    } else {
      var k :| 0 <= k < |p.final| && p.final[k] == e;
      assert e.id == targets[k].containerId;
    }
  }

  /** However a request ends, it calls Docker only for listed containers of its own application and deployment. */
  lemma OnlyOwnContainers(
    compare: (string, string) -> int, operation: Operation, app: string, deployment: string, services: seq<Service>,
    listing: Option<seq<Container>>, resolved: Result<seq<Target>, ResolverError>, aborted: bool, r: Response, p: Phases, e: Event)
    requires Answered(compare, operation, app, deployment, services, listing, resolved, aborted, r, p) && e in Calls(p)
    ensures listing.Some? && exists c :: c in listing.value && c.id == e.id && Belongs(c, app, deployment)
  {
    hide Resolution, Carries, Achieved, Belongs;
    CallsAddressTargets(operation, resolved.value, p, aborted, e);
    var k :| 0 <= k < |resolved.value| && e.id == resolved.value[k].containerId;
    TargetsBelong(compare, app, deployment, services, listing.value, resolved.value, k);
  }

  // ---------------------------------------------------------------- any interleaving

  /** Where a request stands; `Holding` is its `isLockAcquired` flag. */
  datatype Phase = Waiting | Holding | Reading | Ended

  datatype RequestState = RequestState(app: string, mutating: bool, phase: Phase)

  datatype Observation = Observation(request: nat, app: string, event: Event)

  datatype System = System(locks: map<string, ActiveLock>, requests: map<nat, RequestState>, trace: seq<Observation>)

  /** What a request may do next, one atomic stretch between two awaits. */
  datatype Move =
    | Arrive(request: nat, app: string, mutating: bool)
    | Enter(request: nat)
    | Call(request: nat, event: Event)
    | Leave(request: nat)

  predicate Mutates(e: Event) {
    e.Start? || e.Stop?
  }

  predicate Enabled(s: System, m: Move) {
    match m
    case Arrive(r, _, _) => r !in s.requests
    case Enter(r) => r in s.requests && s.requests[r].phase == Waiting
    case Call(r, e) => r in s.requests && (s.requests[r].phase == Holding || (s.requests[r].phase == Reading && !Mutates(e)))
    case Leave(r) => r in s.requests && (s.requests[r].phase == Holding || s.requests[r].phase == Reading)
  }

  function InPhase(s: System, r: nat, phase: Phase): map<nat, RequestState>
    requires r in s.requests
  {
    s.requests[r := s.requests[r].(phase := phase)]
  }

  function Step(s: System, m: Move): System
    requires Enabled(s, m)
  {
    match m
    case Arrive(r, app, mutating) => s.(requests := s.requests[r := RequestState(app, mutating, Waiting)])
    case Enter(r) =>
      var app := s.requests[r].app;
      if !s.requests[r].mutating then s.(requests := InPhase(s, r, Reading))
      else if app in s.locks then s.(requests := InPhase(s, r, Ended))
      else s.(locks := s.locks[app := ActiveLock(app, "unspecified")], requests := InPhase(s, r, Holding))
    case Call(r, e) => s.(trace := s.trace + [Observation(r, s.requests[r].app, e)])
    case Leave(r) =>
      if s.requests[r].phase == Holding then s.(locks := s.locks - {s.requests[r].app}, requests := InPhase(s, r, Ended))
      else s.(requests := InPhase(s, r, Ended))
  }

  const Idle := System(map[], map[], [])

  /** The system after the first `n` moves, if each of them could be made. */
  ghost function SystemFrom(s: System, moves: seq<Move>, n: nat): Option<System>
    requires n <= |moves|
  {
    if n == 0 then Some(s)
    else
      var before := SystemFrom(s, moves, n - 1);
      if before.Some? && Enabled(before.value, moves[n - 1]) then Some(Step(before.value, moves[n - 1])) else None
  }

  ghost function SystemAt(moves: seq<Move>, n: nat): Option<System>
    requires n <= |moves|
  {
    SystemFrom(Idle, moves, n)
  }

  // ---------------------------------------------------------------- what every interleaving keeps

  predicate Holds(s: System, r: nat) {
    r in s.requests && s.requests[r].phase == Holding
  }

  ghost predicate HoldersLocked(s: System) {
    forall r :: Holds(s, r) ==> s.requests[r].app in s.locks
  }

  ghost predicate LocksHeld(s: System) {
    forall app :: app in s.locks ==> exists r :: Holds(s, r) && s.requests[r].app == app
  }

  ghost predicate OneHolder(s: System) {
    forall q, r :: Holds(s, q) && Holds(s, r) && s.requests[q].app == s.requests[r].app ==> q == r
  }

  /** An application is locked exactly while one request holds it. */
  ghost predicate LocksMatchHolders(s: System) {
    HoldersLocked(s) && LocksHeld(s) && OneHolder(s)
  }

  predicate Mutation(o: Observation, app: string) {
    o.app == app && Mutates(o.event)
  }

  /** Between two mutations of one request, no other request mutates the application. */
  ghost predicate NoOverlap(trace: seq<Observation>) {
    forall i, j, k :: 0 <= i < j < k < |trace| && trace[i].request == trace[k].request
      && Mutation(trace[i], trace[k].app) && Mutation(trace[j], trace[k].app) && Mutation(trace[k], trace[k].app)
      ==> trace[j].request == trace[i].request
  }

  /** Whoever still holds an application made every mutation since its own first one. */
  ghost predicate HoldersLast(s: System) {
    forall i, j :: 0 <= i < j < |s.trace| && Mutation(s.trace[i], s.trace[i].app) && Mutation(s.trace[j], s.trace[i].app)
      && Holds(s, s.trace[i].request)
      ==> s.trace[j].request == s.trace[i].request
  }

  ghost predicate TraceFits(s: System) {
    forall i :: 0 <= i < |s.trace| ==>
      && s.trace[i].request in s.requests && s.requests[s.trace[i].request].app == s.trace[i].app
      && s.requests[s.trace[i].request].phase != Waiting
  }

  ghost predicate Exclusive(s: System) {
    LocksMatchHolders(s) && TraceFits(s) && HoldersLast(s) && NoOverlap(s.trace)
  }

  lemma MoveKeepsHolders(s: System, m: Move)
    requires Enabled(s, m) && HoldersLocked(s) && OneHolder(s)
    ensures HoldersLocked(Step(s, m)) && OneHolder(Step(s, m))
  {
    var t := Step(s, m);
    forall r | Holds(t, r) ensures Holds(s, r) || (m.Enter? && m.request == r) {}
    forall r | Holds(s, r) && r != m.request ensures Holds(t, r) && t.requests[r] == s.requests[r] {}
  }

  lemma MoveKeepsLocks(s: System, m: Move)
    requires Enabled(s, m) && LocksMatchHolders(s)
    ensures LocksHeld(Step(s, m))
  {
    var t := Step(s, m);
    forall app | app in t.locks ensures exists r :: Holds(t, r) && t.requests[r].app == app {
      if app in s.locks {
        var r :| Holds(s, r) && s.requests[r].app == app;
        assert Holds(t, r) && t.requests[r].app == app;
      } else {
        assert Holds(t, m.request) && t.requests[m.request].app == app;
      }
    }
  }

  lemma MoveFitsTrace(s: System, m: Move)
    requires Enabled(s, m) && TraceFits(s)
    ensures TraceFits(Step(s, m))
  {
  }

  /** A call is made by the one holder, so it comes after that holder's own mutations only. */
  lemma CallKeepsTrace(s: System, r: nat, e: Event)
    requires Enabled(s, Call(r, e)) && OneHolder(s) && TraceFits(s) && HoldersLast(s) && NoOverlap(s.trace)
    ensures HoldersLast(Step(s, Call(r, e))) && NoOverlap(Step(s, Call(r, e)).trace)
  {
    var t := Step(s, Call(r, e));
    var n := |s.trace|;
    forall i | 0 <= i < n && Mutation(s.trace[i], s.requests[r].app) && Mutates(e) && Holds(s, s.trace[i].request)
      ensures s.trace[i].request == r
    {
    }
    forall i, j, k | 0 <= i < j < k <= n && t.trace[i].request == t.trace[k].request
      && Mutation(t.trace[i], t.trace[k].app) && Mutation(t.trace[j], t.trace[k].app) && Mutation(t.trace[k], t.trace[k].app)
      ensures t.trace[j].request == t.trace[i].request
    {
    }
  }

  /** No other move touches the trace, and a request that starts holding has made no call yet. */
  lemma QuietMoveKeepsTrace(s: System, m: Move)
    requires Enabled(s, m) && !m.Call? && TraceFits(s) && HoldersLast(s)
    ensures HoldersLast(Step(s, m)) && Step(s, m).trace == s.trace
  {
    var t := Step(s, m);
    forall i | 0 <= i < |s.trace| && Holds(t, s.trace[i].request) ensures Holds(s, s.trace[i].request) {}
  }

  lemma MoveKeepsExclusive(s: System, m: Move)
    requires Enabled(s, m) && Exclusive(s)
    ensures Exclusive(Step(s, m))
  {
    hide HoldersLocked, LocksHeld, OneHolder, HoldersLast, NoOverlap, TraceFits;
    MoveKeepsHolders(s, m);
    MoveKeepsLocks(s, m);
    MoveFitsTrace(s, m);
    if m.Call? {
      CallKeepsTrace(s, m.request, m.event);
    } else {
      QuietMoveKeepsTrace(s, m);
    }
  }

  lemma {:induction false} AlwaysExclusive(moves: seq<Move>, n: nat)
    requires n <= |moves| && SystemAt(moves, n).Some?
    ensures Exclusive(SystemAt(moves, n).value)
  {
    if n > 0 {
      AlwaysExclusive(moves, n - 1);
      MoveKeepsExclusive(SystemAt(moves, n - 1).value, moves[n - 1]);
    }
  }

  /** A request refused by the mutex ends at once and the lock stays with its holder. */
  lemma RefusalReleasesNothing(s: System, r: nat)
    requires LocksMatchHolders(s) && Enabled(s, Enter(r)) && s.requests[r].mutating && s.requests[r].app in s.locks
    ensures var t := Step(s, Enter(r));
            && t.locks == s.locks && t.requests[r].phase == Ended && !Enabled(t, Leave(r))
            && exists q :: q != r && Holds(t, q) && t.requests[q].app == s.requests[r].app
  {
    var q :| Holds(s, q) && s.requests[q].app == s.requests[r].app;
    assert Holds(Step(s, Enter(r)), q);
  }

  // ---------------------------------------------------------------- the program as moves of the machine

  /** The calls of one request. */
  function CallMoves(request: nat, calls: seq<Event>): (moves: seq<Move>)
    ensures |moves| == |calls|
  {
    seq(|calls|, k requires 0 <= k < |calls| => Call(request, calls[k]))
  }

  /** A whole request: refused at the mutex, or its calls between entering and leaving. */
  function RequestMoves(request: nat, app: string, refused: bool, calls: seq<Event>): seq<Move> {
    if refused then [Arrive(request, app, true), Enter(request)]
    else [Arrive(request, app, true), Enter(request)] + CallMoves(request, calls) + [Leave(request)]
  }

  function Observed(request: nat, app: string, calls: seq<Event>): seq<Observation> {
    seq(|calls|, k requires 0 <= k < |calls| => Observation(request, app, calls[k]))
  }

  lemma {:induction false} MovesJoin(s: System, a: seq<Move>, b: seq<Move>, n: nat)
    requires n <= |b| && SystemFrom(s, a, |a|).Some?
    ensures SystemFrom(s, a + b, |a| + n) == SystemFrom(SystemFrom(s, a, |a|).value, b, n)
  {
    if n == 0 {
      SamePrefix(s, a, b, |a|);
    } else {
      MovesJoin(s, a, b, n - 1);
    }
  }

  lemma {:induction false} SamePrefix(s: System, a: seq<Move>, b: seq<Move>, n: nat)
    requires n <= |a|
    ensures SystemFrom(s, a + b, n) == SystemFrom(s, a, n)
  {
    if n > 0 { SamePrefix(s, a, b, n - 1); }
  }

  /** A holder's calls can be made in a row, and only the trace changes. */
  lemma {:induction false} CallsRun(s: System, request: nat, calls: seq<Event>, n: nat)
    requires Holds(s, request) && n <= |calls|
    ensures SystemFrom(s, CallMoves(request, calls), n) ==
            Some(s.(trace := s.trace + Observed(request, s.requests[request].app, calls[..n])))
  {
    if n > 0 {
      CallsRun(s, request, calls, n - 1);
      var app := s.requests[request].app;
      assert s.trace + Observed(request, app, calls[..n]) ==
             (s.trace + Observed(request, app, calls[..n - 1])) + [Observation(request, app, calls[n - 1])];
    } else {
      assert s.trace + Observed(request, s.requests[request].app, calls[..0]) == s.trace;
    }
  }

  /** No move of another request keeps a waiting or holding request from its next move. */
  lemma OthersLeaveRequestAlone(s: System, m: Move, request: nat)
    requires Enabled(s, m) && m.request != request && request in s.requests
    ensures request in Step(s, m).requests && Step(s, m).requests[request] == s.requests[request]
    ensures forall e :: Enabled(s, Call(request, e)) ==> Enabled(Step(s, m), Call(request, e))
    ensures Enabled(s, Enter(request)) ==> Enabled(Step(s, m), Enter(request))
    ensures Enabled(s, Leave(request)) ==> Enabled(Step(s, m), Leave(request))
  {
  }

  lemma RequestRuns(s: System, request: nat, app: string, calls: seq<Event>)
    requires request !in s.requests
    ensures var refused := app in s.locks;
            var moves := RequestMoves(request, app, refused, calls);
            var t := SystemFrom(s, moves, |moves|);
            && t.Some? && t.value.locks == s.locks
            && t.value.trace == s.trace + Observed(request, app, if refused then [] else calls)
  {
    var opening := [Arrive(request, app, true), Enter(request)];
    assert SystemFrom(s, opening, 0) == Some(s);
    assert SystemFrom(s, opening, 1) == Some(Step(s, opening[0]));
    var entered := SystemFrom(s, opening, 2).value;
    if app in s.locks {
      assert s.trace + Observed(request, app, []) == s.trace;
    } else {
      var middle, last := CallMoves(request, calls), [Leave(request)];
      CallsRun(entered, request, calls, |calls|);
      assert calls[..|calls|] == calls;
      MovesJoin(s, opening, middle, |middle|);
      var called := SystemFrom(s, opening + middle, |opening + middle|).value;
      assert SystemFrom(called, last, 0) == Some(called);
      MovesJoin(s, opening + middle, last, 1);
      assert s.locks[app := ActiveLock(app, "unspecified")] - {app} == s.locks;
    }
  }

  /**
   * One request served by the program is a run of the machine: after any history that left the mutex
   * as it is, the request's moves can be made, leave its locks and record its Docker calls.
   */
  method Serve(
    docker: Docker, mutex: ApplicationMutationMutex, operation: Operation, compare: (string, string) -> int,
    app: string, deployment: string, services: seq<Service>, ghost history: seq<Move>, ghost request: nat)
    returns (r: Response, ghost moves: seq<Move>)
    requires TotalOrder(compare) && docker.Genuine()
    requires SystemAt(history, |history|).Some? && SystemAt(history, |history|).value.locks == mutex.locks
    requires request !in SystemAt(history, |history|).value.requests
    modifies docker, mutex
    ensures docker.Genuine() && old(docker.trace) <= docker.trace && (r == OperationInProgress <==> app in old(mutex.locks))
    ensures moves == history + RequestMoves(request, app, app in old(mutex.locks), docker.trace[|old(docker.trace)|..])
    ensures SystemAt(moves, |moves|).Some?
    ensures var before, after := SystemAt(history, |history|).value, SystemAt(moves, |moves|).value;
            && after.locks == mutex.locks && Exclusive(after)
            && after.trace == before.trace + Observed(request, app, docker.trace[|old(docker.trace)|..])
  {
    hide TotalOrder, Answered, Enabled, Step, Exclusive, RequestMoves;
    ghost var resolved, p;
    r, resolved, p := Execute(docker, mutex, operation, compare, app, deployment, services);
    ghost var s, calls := SystemAt(history, |history|).value, Calls(p);
    assert docker.trace[|old(docker.trace)|..] == calls;
    RequestRuns(s, request, app, calls);
    ghost var own := RequestMoves(request, app, app in s.locks, calls);
    MovesJoin(Idle, history, own, |own|);
    moves := history + own;
    AlwaysExclusive(moves, |moves|);
  }
}
