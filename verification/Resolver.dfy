/** The runtime adapter's target resolver: from observed containers to ordered targets, or a refusal. */
module Resolver {
  import opened Basics
  import opened Sequences
  import opened ReplicaLabels
  import Decimal

  datatype ExecutionState = RunningState | ExitedState | CreatedState | RestartingState | PausedState | DeadState | UnknownState

  datatype Container = Container(id: string, serviceName: string, state: ExecutionState, labels: map<string, string>)

  datatype Service = Service(id: string, name: string)

  datatype Target = Target(
    containerId: string, serviceName: string, serviceId: string, replica: int, state: ExecutionState, labels: map<string, string>)

  datatype ResolverError = UnexpectedContainer | ContainerNotFound

  // ---------------------------------------------------------------- reading labels

  function Label(c: Container, name: string): Option<string> {
    if name in c.labels then Some(c.labels[name]) else None
  }

  function AppLabel(c: Container): Option<string> { Label(c, "zcc.application_id") }

  function ServiceOf(c: Container): string {
    if "zcc.service_name" in c.labels then c.labels["zcc.service_name"] else c.serviceName
  }

  function ReplicaLabel(c: Container): string {
    if "zcc.replica_index" in c.labels then c.labels["zcc.replica_index"] else ""
  }

  predicate Unnumbered(c: Container) {
    Trim(ReplicaLabel(c)) == ""
  }

  predicate Numbered(c: Container) {
    Accepted(ReplicaLabel(c))
  }

  function Replica(c: Container): int {
    if !Unnumbered(c) && Numbered(c) then ParseInt(ReplicaLabel(c)).value else 1
  }

  // ---------------------------------------------------------------- what is expected

  function Names(services: seq<Service>): set<string> {
    set s | s in services :: s.name
  }

  /** The id of the last service declared under each name. */
  function Ids(services: seq<Service>): (ids: map<string, string>)
    ensures ids.Keys == Names(services)
  {
    if services == [] then map[]
    else
      var last := services[|services| - 1];
      assert services == services[..|services| - 1] + [last];
      Ids(services[..|services| - 1])[last.name := last.id]
  }

  /** Not labelled at all, or labelled for exactly this application, deployment and a declared service. */
  predicate Expected(c: Container, app: string, deployment: string, names: set<string>) {
    AppLabel(c).Some? ==>
      && AppLabel(c).value == app && Label(c, "zcc.deployment_id") == Some(deployment)
      && ServiceOf(c) != "" && ServiceOf(c) in names
  }

  /** Selects the labelled containers of one service. */
  function Member(name: string): Container -> Option<Container> {
    c => if AppLabel(c).Some? && ServiceOf(c) == name then Some(c) else None
  }

  function Group(observed: seq<Container>, name: string): seq<Container> {
    Collect(Member(name), observed)
  }

  function Replicas(group: seq<Container>): set<int> {
    set c | c in group :: Replica(c)
  }

  function ReplicasUpTo(group: seq<Container>, k: nat): set<int>
    requires k <= |group|
  {
    set j | 0 <= j < k :: Replica(group[j])
  }

  function OneTo(n: nat): (r: set<int>)
    ensures forall i :: i in r <==> 1 <= i <= n
  {
    if n == 0 then {} else OneTo(n - 1) + {n}
  }

  /** Some container of a replicated service has no number, or a malformed one. */
  predicate SomeUnusable(group: seq<Container>) {
    exists k :: 0 <= k < |group| && Unusable(group[k])
  }

  predicate Unusable(c: Container) {
    Unnumbered(c) || !Numbered(c)
  }

  /** What is wrong with the containers of one service, if anything. */
  function GroupFault(group: seq<Container>): Option<ResolverError> {
    if group == [] then Some(ContainerNotFound)
    else if |group| == 1 then
      if Unnumbered(group[0]) || Numbered(group[0]) then None else Some(UnexpectedContainer)
    else if SomeUnusable(group) then Some(UnexpectedContainer)
    else if |Replicas(group)| < |group| then Some(UnexpectedContainer)
    else if Replicas(group) != OneTo(|group|) then Some(ContainerNotFound)
    else None
  }

  /** The first fault in the order of declaration. */
  function FirstFault(observed: seq<Container>, services: seq<Service>): Option<ResolverError> {
    if services == [] then None
    else if GroupFault(Group(observed, services[0].name)).Some? then GroupFault(Group(observed, services[0].name))
    else FirstFault(observed, services[1..])
  }

  function Fault(app: string, deployment: string, services: seq<Service>, observed: seq<Container>): Option<ResolverError> {
    if exists c :: c in observed && !Expected(c, app, deployment, Names(services)) then Some(UnexpectedContainer)
    else FirstFault(observed, services)
  }

  /**
   * The condition for success: labelled containers are expected, every declared service has one, a
   * lone container is numbered canonically or not at all, and n > 1 containers are numbered exactly 1..n.
   */
  ghost predicate Resolvable(app: string, deployment: string, services: seq<Service>, observed: seq<Container>) {
    && (forall c :: c in observed ==> Expected(c, app, deployment, Names(services)))
    && (forall s :: s in services ==> WellNumbered(Group(observed, s.name)))
  }

  ghost predicate WellNumbered(group: seq<Container>) {
    && group != []
    && (|group| == 1 ==> Unnumbered(group[0]) || exists n :: n >= 1 && Trim(ReplicaLabel(group[0])) == Decimal.Print(n))
    && (|group| > 1 ==> forall n :: 1 <= n <= |group| ==> exists c :: c in group && Trim(ReplicaLabel(c)) == Decimal.Print(n))
  }

  // ---------------------------------------------------------------- order

  predicate SameKey(a: Target, b: Target) {
    a.serviceName == b.serviceName && a.replica == b.replica
  }

  /** By service name, then by replica number. */
  predicate Before(compare: (string, string) -> int, a: Target, b: Target) {
    compare(a.serviceName, b.serviceName) < 0 || (a.serviceName == b.serviceName && a.replica < b.replica)
  }

  /** The comparator handed to `sort`, with its tie-breaker on container ids. */
  function Comparator(compare: (string, string) -> int, a: Target, b: Target): int {
    var byService := compare(a.serviceName, b.serviceName);
    if byService != 0 then byService
    else if a.replica != b.replica then a.replica - b.replica
    else compare(a.containerId, b.containerId)
  }

  /** The tie-breaker is never reached for targets that differ in service or replica. */
  lemma ComparatorDecides(compare: (string, string) -> int, a: Target, b: Target)
    requires TotalOrder(compare) && !SameKey(a, b)
    ensures Comparator(compare, a, b) < 0 <==> Before(compare, a, b)
    ensures Comparator(compare, a, b) > 0 <==> Before(compare, b, a)
    ensures Comparator(compare, a, b) != 0
  {
  }

  ghost predicate StrictlyOrdered(compare: (string, string) -> int, targets: seq<Target>) {
    forall i, j :: 0 <= i < j < |targets| ==> Before(compare, targets[i], targets[j])
  }

  // ---------------------------------------------------------------- the pigeonhole argument

  lemma {:induction false} OneToSize(n: nat)
    ensures |OneTo(n)| == n
  {
    if n > 0 {
      OneToSize(n - 1);
    }
  }

  lemma {:induction false} ReplicasAtMost(group: seq<Container>)
    ensures |Replicas(group)| <= |group|
  {
    if group != [] {
      var front, last := group[..|group| - 1], group[|group| - 1];
      assert group == front + [last];
      assert Replicas(group) == Replicas(front) + {Replica(last)};
      ReplicasAtMost(front);
    }
  }

  /** Distinct numbers without a gap are exactly 1..n. */
  lemma NoGaps(seen: set<int>, n: nat)
    requires |seen| == n && OneTo(n) <= seen
    ensures seen == OneTo(n)
  {
    OneToSize(n);
    assert seen == OneTo(n) + (seen - OneTo(n));
  }

  lemma NumberedAs(c: Container, n: int)
    requires n >= 1
    ensures Trim(ReplicaLabel(c)) == Decimal.Print(n) <==> !Unnumbered(c) && Numbered(c) && Replica(c) == n
  {
    AcceptedIff(ReplicaLabel(c), n);
  }

  /** If n containers carry all the numerals 1..n, each carries one of them. */
  lemma AllNumbered(group: seq<Container>, k: nat)
    requires k < |group|
    requires forall n :: 1 <= n <= |group| ==> exists c :: c in group && Trim(ReplicaLabel(c)) == Decimal.Print(n)
    ensures !Unnumbered(group[k]) && Numbered(group[k])
  {
    if Unnumbered(group[k]) || !Numbered(group[k]) {
      var others := group[..k] + group[k + 1..];
      forall n | n in OneTo(|group|) ensures n in Replicas(others) {
        var c :| c in group && Trim(ReplicaLabel(c)) == Decimal.Print(n);
        NumberedAs(c, n);
        assert c in others;
      }
      ReplicasAtMost(others);
      OneToSize(|group|);
      FewerCannotCover(OneTo(|group|), Replicas(others));
    }
  }

  lemma FewerCannotCover(needed: set<int>, present: set<int>)
    requires needed <= present
    ensures |needed| <= |present|
  {
    assert present == needed + (present - needed);
  }

  lemma AllNumeralsCovered(group: seq<Container>)
    requires |group| > 1 && WellNumbered(group)
    ensures OneTo(|group|) <= Replicas(group)
  {
    forall n | n in OneTo(|group|) ensures n in Replicas(group) {
      var c :| c in group && Trim(ReplicaLabel(c)) == Decimal.Print(n);
      NumberedAs(c, n);
    }
  }

  lemma AllUsable(group: seq<Container>)
    requires |group| > 1 && WellNumbered(group)
    ensures !SomeUnusable(group)
  {
    forall k | 0 <= k < |group| ensures !Unusable(group[k]) {
      AllNumbered(group, k);
    }
  }

  lemma ExactlyNumbered(group: seq<Container>)
    requires |group| > 1 && WellNumbered(group)
    ensures GroupFault(group).None?
  {
    AllUsable(group);
    AllNumeralsCovered(group);
    hide WellNumbered, SomeUnusable, Replica;
    ReplicasAtMost(group);
    OneToSize(|group|);
    FewerCannotCover(OneTo(|group|), Replicas(group));
    NoGaps(Replicas(group), |group|);
  }

  lemma FaultlessNumbering(group: seq<Container>)
    requires |group| > 1 && GroupFault(group).None?
    ensures WellNumbered(group)
  {
    forall n | 1 <= n <= |group| ensures exists c :: c in group && Trim(ReplicaLabel(c)) == Decimal.Print(n) {
      assert n in Replicas(group);
      var c :| c in group && Replica(c) == n;
      NumberedAs(c, n);
    }
  }

  lemma LoneContainer(c: Container)
    ensures GroupFault([c]).None? <==> WellNumbered([c])
  {
    if Numbered(c) && !Unnumbered(c) {
      NumberedAs(c, Replica(c));
    }
    if n: nat :| n >= 1 && Trim(ReplicaLabel(c)) == Decimal.Print(n) {
      NumberedAs(c, n);
    }
  }

  /** A service has no fault exactly when it is numbered as required. */
  lemma GroupFaultIff(group: seq<Container>)
    ensures GroupFault(group).None? <==> WellNumbered(group)
  {
    if |group| == 1 {
      LoneContainer(group[0]);
      assert group == [group[0]];
    } else if |group| > 1 {
      if WellNumbered(group) {
        ExactlyNumbered(group);
      }
      if GroupFault(group).None? {
        FaultlessNumbering(group);
      }
    }
  }

  lemma {:induction false} FirstFaultIff(observed: seq<Container>, services: seq<Service>)
    ensures FirstFault(observed, services).None? <==> forall s :: s in services ==> WellNumbered(Group(observed, s.name))
  {
    hide GroupFault, WellNumbered, Group;
    if services != [] {
      GroupFaultIff(Group(observed, services[0].name));
      FirstFaultIff(observed, services[1..]);
      assert services == [services[0]] + services[1..];
    }
  }

  /** The code's checks, taken together, are the condition for success. */
  lemma FaultIff(app: string, deployment: string, services: seq<Service>, observed: seq<Container>)
    ensures Fault(app, deployment, services, observed).None? <==> Resolvable(app, deployment, services, observed)
  {
    FirstFaultIff(observed, services);
  }

  // ---------------------------------------------------------------- targets

  function TargetOf(c: Container, ids: map<string, string>): Target
    requires ServiceOf(c) in ids
  {
    Target(c.id, ServiceOf(c), ids[ServiceOf(c)], Replica(c), c.state, c.labels)
  }

  /** Selects the labelled containers of the named services, as targets. */
  function Targeted(names: set<string>, ids: map<string, string>): Container -> Option<Target>
    requires names <= ids.Keys
  {
    c => if AppLabel(c).Some? && ServiceOf(c) in names then Some(TargetOf(c, ids)) else None
  }

  /** The targets of the given services, in observed order. */
  function TargetsOf(observed: seq<Container>, names: set<string>, ids: map<string, string>): seq<Target>
    requires names <= ids.Keys
  {
    Collect(Targeted(names, ids), observed)
  }

  ghost predicate NoTwins(targets: seq<Target>) {
    forall i, j :: 0 <= i < j < |targets| ==> !SameKey(targets[i], targets[j])
  }

  lemma {:induction false} OneServiceMore(observed: seq<Container>, names: set<string>, name: string, ids: map<string, string>)
    requires names + {name} <= ids.Keys && name !in names
    ensures multiset(TargetsOf(observed, names + {name}, ids)) ==
            multiset(TargetsOf(observed, names, ids)) + multiset(TargetsOf(observed, {name}, ids))
  {
    if observed != [] {
      OneServiceMore(observed[..|observed| - 1], names, name, ids);
    }
  }

  /** A service's targets are its containers, one for one. */
  lemma {:induction false} GroupTargets(observed: seq<Container>, name: string, ids: map<string, string>)
    requires name in ids
    ensures var group := Group(observed, name);
            && (forall c :: c in group ==> ServiceOf(c) == name)
            && TargetsOf(observed, {name}, ids) == seq(|group|, k requires 0 <= k < |group| && ServiceOf(group[k]) == name => TargetOf(group[k], ids))
  {
    if observed != [] {
      GroupTargets(observed[..|observed| - 1], name, ids);
    }
  }

  // ---------------------------------------------------------------- the resolver

  /** Step 1: only expected containers, of which the labelled ones are kept. */
  method Match(app: string, deployment: string, names: set<string>, observed: seq<Container>) returns (r: Result<seq<Container>, ResolverError>)
    ensures r.Err? <==> exists c :: c in observed && !Expected(c, app, deployment, names)
    ensures r.Err? ==> r.error == UnexpectedContainer
    ensures r.Ok? ==> r.value == Collect(Labelled, observed)
  {
    var matched: seq<Container> := [];
    for k := 0 to |observed|
      invariant forall j :: 0 <= j < k ==> Expected(observed[j], app, deployment, names)
      invariant matched == Collect(Labelled, observed[..k])
    {
      var c := observed[k];
      assert observed[..k + 1][..k] == observed[..k];
      if AppLabel(c) == Some(app) {
        if Label(c, "zcc.deployment_id") != Some(deployment) || ServiceOf(c) == "" || ServiceOf(c) !in names {
          assert !Expected(c, app, deployment, names);
          return Err(UnexpectedContainer);
        }
        matched := matched + [c];
      } else if AppLabel(c).Some? {
        assert !Expected(c, app, deployment, names);
        return Err(UnexpectedContainer);
      }
    }
    assert observed[..|observed|] == observed;
    r := Ok(matched);
  }

  function Labelled(c: Container): Option<Container> {
    if AppLabel(c).Some? then Some(c) else None
  }

  /** The labelled containers hold every service's group. */
  lemma GroupOfLabelled(observed: seq<Container>, name: string)
    ensures Group(Collect(Labelled, observed), name) == Group(observed, name)
  {
    CollectKept(Member(name), Labelled, observed);
  }

  lemma TargetsOfLabelled(observed: seq<Container>, names: set<string>, ids: map<string, string>)
    requires names <= ids.Keys
    ensures TargetsOf(Collect(Labelled, observed), names, ids) == TargetsOf(observed, names, ids)
  {
    CollectKept(Targeted(names, ids), Labelled, observed);
  }

  /** Containers by service, in matching order. */
  method GroupByService(services: seq<Service>, matched: seq<Container>) returns (groups: map<string, seq<Container>>)
    requires forall c :: c in matched ==> AppLabel(c).Some? && ServiceOf(c) in Names(services)
    ensures groups.Keys == Names(services)
    ensures forall name :: name in groups ==> groups[name] == Group(matched, name)
  {
    groups := map[];
    for k := 0 to |services|
      invariant groups.Keys == Names(services[..k]) && forall name :: name in groups ==> groups[name] == []
    {
      assert services[..k + 1] == services[..k] + [services[k]];
      groups := groups[services[k].name := []];
    }
    assert services[..|services|] == services;
    for k := 0 to |matched|
      invariant groups.Keys == Names(services)
      invariant forall name :: name in groups ==> groups[name] == Group(matched[..k], name)
    {
      var c := matched[k];
      assert matched[..k + 1][..k] == matched[..k];
      groups := groups[ServiceOf(c) := groups[ServiceOf(c)] + [c]];
    }
    assert matched[..|matched|] == matched;
  }

  /** Step 2 for one service: its targets, or what is wrong with its numbering. */
  method ResolveGroup(group: seq<Container>, name: string, ids: map<string, string>) returns (r: Result<seq<Target>, ResolverError>)
    requires name in ids && forall c :: c in group ==> ServiceOf(c) == name
    ensures r.Err? <==> GroupFault(group).Some?
    ensures r.Err? ==> GroupFault(group) == Some(r.error)
    ensures r.Ok? ==> r.value == seq(|group|, k requires 0 <= k < |group| && ServiceOf(group[k]) == name => TargetOf(group[k], ids))
    ensures r.Ok? ==> NoTwins(r.value)
  {
    if group == [] { return Err(ContainerNotFound); }
    if |group| == 1 {
      var c := group[0];
      if !Unnumbered(c) && !Numbered(c) { return Err(UnexpectedContainer); }
      return Ok([TargetOf(c, ids)]);
    }
    r := ResolveReplicas(group, name, ids);
  }

  /** Reads every label of a replicated service; `None` when one is missing, malformed or used twice. */
  method ReadReplicas(group: seq<Container>, name: string, ids: map<string, string>) returns (r: Option<seq<Target>>, seen: set<int>)
    requires name in ids && forall k :: 0 <= k < |group| ==> ServiceOf(group[k]) == name
    ensures r.None? <==> SomeUnusable(group) || |Replicas(group)| < |group|
    ensures r.Some? ==> |r.value| == |group| && forall k :: 0 <= k < |group| ==> r.value[k] == TargetOf(group[k], ids)
    ensures r.Some? ==> seen == Replicas(group) && |seen| == |group|
  {
    hide Unusable, SomeUnusable, Replica, TargetOf, ServiceOf, Gathered;
    var targets: seq<Target> := [];
    seen := {};
    hide Replicas;
    AllReplicas(group);
    assert ReplicasUpTo(group, 0) == {};
    hide ReplicasUpTo;
    NothingGathered(group, ids);
    for k := 0 to |group|
      invariant forall j :: 0 <= j < k ==> !Unusable(group[j])
      invariant seen == ReplicasUpTo(group, k) && |seen| == k && |targets| == k
      invariant Gathered(group, k, ids, targets)
    {
      var c := group[k];
      if Unusable(c) {
        SomeUnusableAt(group, k);
        return None, seen;
      }
      if Replica(c) in seen {
        DuplicateReplica(group, k);
        return None, seen;
      }
      OneReplicaMore(group, k);
      OneGathered(group, k, ids, targets);
      seen := seen + {Replica(c)};
      targets := targets + [TargetOf(c, ids)];
    }
    NoneUnusable(group);
    AllGathered(group, ids, targets);
    r := Some(targets);
  }

  /** The targets of the first `k` containers. */
  ghost predicate Gathered(group: seq<Container>, k: nat, ids: map<string, string>, targets: seq<Target>) {
    && k <= |group| && |targets| == k
    && forall j :: 0 <= j < k ==> ServiceOf(group[j]) in ids && targets[j] == TargetOf(group[j], ids)
  }

  lemma NothingGathered(group: seq<Container>, ids: map<string, string>)
    ensures Gathered(group, 0, ids, [])
  {
  }

  lemma OneGathered(group: seq<Container>, k: nat, ids: map<string, string>, targets: seq<Target>)
    requires Gathered(group, k, ids, targets) && k < |group| && ServiceOf(group[k]) in ids
    ensures Gathered(group, k + 1, ids, targets + [TargetOf(group[k], ids)])
  {
    hide TargetOf, ServiceOf;
  }

  lemma AllGathered(group: seq<Container>, ids: map<string, string>, targets: seq<Target>)
    requires Gathered(group, |group|, ids, targets)
    ensures |targets| == |group| && forall k :: 0 <= k < |group| ==> ServiceOf(group[k]) in ids && targets[k] == TargetOf(group[k], ids)
  {
  }

  lemma SomeUnusableAt(group: seq<Container>, k: nat)
    requires k < |group| && Unusable(group[k])
    ensures SomeUnusable(group)
  {
  }

  lemma NoneUnusable(group: seq<Container>)
    requires forall k :: 0 <= k < |group| ==> !Unusable(group[k])
    ensures !SomeUnusable(group)
  {
  }

  lemma OneReplicaMore(group: seq<Container>, k: nat)
    requires k < |group|
    ensures ReplicasUpTo(group, k + 1) == ReplicasUpTo(group, k) + {Replica(group[k])}
  {
    hide Replica;
  }

  lemma AllReplicas(group: seq<Container>)
    ensures ReplicasUpTo(group, |group|) == Replicas(group)
  {
    hide Replica;
    forall c | c in group ensures Replica(c) in ReplicasUpTo(group, |group|) {
      var k :| 0 <= k < |group| && group[k] == c;
    }
  }

  method ResolveReplicas(group: seq<Container>, name: string, ids: map<string, string>) returns (r: Result<seq<Target>, ResolverError>)
    requires |group| > 1 && name in ids && forall c :: c in group ==> ServiceOf(c) == name
    ensures r.Err? <==> GroupFault(group).Some?
    ensures r.Err? ==> GroupFault(group) == Some(r.error)
    ensures r.Ok? ==> r.value == seq(|group|, k requires 0 <= k < |group| && ServiceOf(group[k]) == name => TargetOf(group[k], ids))
    ensures r.Ok? ==> NoTwins(r.value)
  {
    hide Unusable, Replica;
    var targets, seen := ReadReplicas(group, name, ids);
    if targets.None? { return Err(UnexpectedContainer); }
    for i := 1 to |group| + 1
      invariant forall n :: 1 <= n < i ==> n in seen
    {
      if i !in seen {
        assert i in OneTo(|group|);
        return Err(ContainerNotFound);
      }
    }
    NoGaps(seen, |group|);
    NumberedApart(group, targets.value, ids);
    r := Ok(targets.value);
  }

  lemma NumberedApart(group: seq<Container>, targets: seq<Target>, ids: map<string, string>)
    requires |Replicas(group)| == |group| == |targets| && forall c :: c in group ==> ServiceOf(c) in ids
    requires forall k :: 0 <= k < |group| ==> targets[k] == TargetOf(group[k], ids)
    ensures NoTwins(targets)
  {
    hide Replica;
    forall i, j | 0 <= i < j < |targets| ensures !SameKey(targets[i], targets[j]) {
      if SameKey(targets[i], targets[j]) {
        assert Replica(group[i]) in ReplicasUpTo(group, j);
        DuplicateReplica(group, j);
      }
    }
  }

  lemma DuplicateReplica(group: seq<Container>, k: nat)
    requires k < |group| && Replica(group[k]) in ReplicasUpTo(group, k)
    ensures |Replicas(group)| < |group|
  {
    hide Replica;
    var others := group[..k] + group[k + 1..];
    forall x | x in Replicas(group) ensures x in Replicas(others) {
      var c :| c in group && Replica(c) == x;
      var j :| 0 <= j < |group| && group[j] == c;
      if j == k {
        var i :| 0 <= i < k && Replica(group[i]) == x;
        assert others[i] == group[i];
      } else {
        assert c in others;
      }
    }
    ReplicasAtMost(others);
    FewerCannotCover(Replicas(group), Replicas(others));
  }

  // ---------------------------------------------------------------- all services

  lemma {:induction false} FirstFaultAt(observed: seq<Container>, services: seq<Service>, k: nat)
    requires k < |services| && GroupFault(Group(observed, services[k].name)).Some?
    requires forall j :: 0 <= j < k ==> GroupFault(Group(observed, services[j].name)).None?
    ensures FirstFault(observed, services) == GroupFault(Group(observed, services[k].name))
  {
    hide GroupFault, Group;
    if k > 0 {
      FirstFaultAt(observed, services[1..], k - 1);
    }
  }

  lemma {:induction false} NoFault(observed: seq<Container>, services: seq<Service>)
    requires forall j :: 0 <= j < |services| ==> GroupFault(Group(observed, services[j].name)).None?
    ensures FirstFault(observed, services).None?
  {
    if services != [] {
      NoFault(observed, services[1..]);
    }
  }

  /** Adding another service's targets keeps targets apart. */
  lemma StillApart(resolved: seq<Target>, more: seq<Target>, done: set<string>, name: string)
    requires NoTwins(resolved) && NoTwins(more) && name !in done
    requires forall t :: t in resolved ==> t.serviceName in done
    requires forall t :: t in more ==> t.serviceName == name
    ensures NoTwins(resolved + more)
  {
    forall i, j | 0 <= i < j < |resolved + more| ensures !SameKey((resolved + more)[i], (resolved + more)[j]) {
      if i < |resolved| <= j {
        assert resolved[i] in resolved && more[j - |resolved|] in more;
      }
    }
  }

  /** A new service's targets join those of the services before it. */
  lemma ServiceAdded(
    matched: seq<Container>, done: set<string>, name: string, ids: map<string, string>, resolved: seq<Target>, more: seq<Target>)
    requires done + {name} <= ids.Keys && name !in done
    requires multiset(resolved) == multiset(TargetsOf(matched, done, ids)) && NoTwins(resolved)
    requires more == TargetsOf(matched, {name}, ids) && NoTwins(more)
    requires forall t :: t in resolved ==> t.serviceName in done
    ensures multiset(resolved + more) == multiset(TargetsOf(matched, done + {name}, ids)) && NoTwins(resolved + more)
    ensures forall t :: t in resolved + more ==> t.serviceName in done + {name}
  {
    hide Group, TargetOf, NoTwins, TargetsOf;
    GroupTargets(matched, name, ids);
    GroupNames(Group(matched, name), name, ids, more);
    StillApart(resolved, more, done, name);
    OneServiceMore(matched, done, name, ids);
  }

  /** Step 2: the targets of all services in turn; a name declared twice is resolved once. */
  method ResolveServices(services: seq<Service>, groups: map<string, seq<Container>>, ghost matched: seq<Container>, ids: map<string, string>)
    returns (r: Result<seq<Target>, ResolverError>)
    requires groups.Keys == Names(services) == ids.Keys
    requires forall name :: name in groups ==> groups[name] == Group(matched, name)
    ensures r.Err? <==> FirstFault(matched, services).Some?
    ensures r.Err? ==> FirstFault(matched, services) == Some(r.error)
    ensures r.Ok? ==> multiset(r.value) == multiset(TargetsOf(matched, Names(services), ids)) && NoTwins(r.value)
  {
    hide GroupFault, Group, TargetOf, NoTwins, FirstFault, TargetsOf;
    var resolved: seq<Target> := [];
    var done: set<string> := {};
    NoServices(matched, ids);
    assert NoTwins(resolved) by { ApartAlready(); }
    for k := 0 to |services|
      invariant done == Names(services[..k]) && done <= ids.Keys
      invariant multiset(resolved) == multiset(TargetsOf(matched, done, ids)) && NoTwins(resolved)
      invariant forall t :: t in resolved ==> t.serviceName in done
      invariant forall j :: 0 <= j < k ==> GroupFault(Group(matched, services[j].name)).None?
    {
      var name := services[k].name;
      assert services[..k + 1] == services[..k] + [services[k]];
      if name in done {
        RepeatedService(matched, services, k);
      } else {
        GroupTargets(matched, name, ids);
        var targets := ResolveGroup(groups[name], name, ids);
        if targets.Err? {
          FirstFaultAt(matched, services, k);
          return targets;
        }
        ServiceAdded(matched, done, name, ids, resolved, targets.value);
        resolved := resolved + targets.value;
        done := done + {name};
      }
    }
    assert services[..|services|] == services;
    NoFault(matched, services);
    r := Ok(resolved);
  }

  lemma ApartAlready()
    ensures NoTwins([])
  {
  }

  lemma {:induction false} NoServices(observed: seq<Container>, ids: map<string, string>)
    ensures TargetsOf(observed, {}, ids) == []
  {
    if observed != [] {
      NoServices(observed[..|observed| - 1], ids);
    }
  }

  lemma RepeatedService(matched: seq<Container>, services: seq<Service>, k: nat)
    requires k < |services| && services[k].name in Names(services[..k])
    requires forall j :: 0 <= j < k ==> GroupFault(Group(matched, services[j].name)).None?
    ensures GroupFault(Group(matched, services[k].name)).None?
  {
    hide GroupFault, Group;
    var s :| s in services[..k] && s.name == services[k].name;
    var j :| 0 <= j < k && services[j] == s;
  }

  lemma GroupNames(group: seq<Container>, name: string, ids: map<string, string>, targets: seq<Target>)
    requires name in ids && forall c :: c in group ==> ServiceOf(c) == name
    requires targets == seq(|group|, k requires 0 <= k < |group| && ServiceOf(group[k]) == name => TargetOf(group[k], ids))
    ensures forall t :: t in targets ==> t.serviceName == name
  {
  }

  // ---------------------------------------------------------------- sorting

  lemma BeforeTransitive(compare: (string, string) -> int, a: Target, b: Target, c: Target)
    requires TotalOrder(compare) && Before(compare, a, b) && Before(compare, b, c)
    ensures Before(compare, a, c)
  {
  }

  method Insert(compare: (string, string) -> int, sorted: seq<Target>, t: Target) returns (r: seq<Target>)
    requires TotalOrder(compare) && StrictlyOrdered(compare, sorted)
    requires forall x :: x in sorted ==> !SameKey(x, t)
    ensures StrictlyOrdered(compare, r) && multiset(r) == multiset(sorted) + multiset{t}
  {
    hide TotalOrder, Before, Comparator, SameKey;
    var k := 0;
    while k < |sorted| && Comparator(compare, sorted[k], t) <= 0
      invariant 0 <= k <= |sorted| && forall j :: 0 <= j < k ==> Before(compare, sorted[j], t)
    {
      ComparatorDecides(compare, sorted[k], t);
      k := k + 1;
    }
    if k < |sorted| { ComparatorDecides(compare, sorted[k], t); }
    forall j | k <= j < |sorted| ensures Before(compare, t, sorted[j]) {
      if j > k { BeforeTransitive(compare, t, sorted[k], sorted[j]); }
    }
    r := sorted[..k] + [t] + sorted[k..];
    assert sorted == sorted[..k] + sorted[k..];
  }

  /** Step 3. */
  method Sort(compare: (string, string) -> int, targets: seq<Target>) returns (sorted: seq<Target>)
    requires TotalOrder(compare) && NoTwins(targets)
    ensures StrictlyOrdered(compare, sorted) && multiset(sorted) == multiset(targets)
  {
    hide TotalOrder, Before;
    sorted := [];
    for k := 0 to |targets|
      invariant StrictlyOrdered(compare, sorted) && multiset(sorted) == multiset(targets[..k])
    {
      assert targets[..k + 1] == targets[..k] + [targets[k]];
      forall x | x in sorted ensures !SameKey(x, targets[k]) {
        assert x in multiset(targets[..k]);
        var j :| 0 <= j < k && targets[j] == x;
      }
      sorted := Insert(compare, sorted, targets[k]);
    }
    assert targets[..|targets|] == targets;
  }

  // ---------------------------------------------------------------- the whole resolver

  /** What the resolver promises: targets exactly when resolvable, and otherwise the first fault. */
  ghost predicate Resolution(
    compare: (string, string) -> int, app: string, deployment: string, services: seq<Service>, observed: seq<Container>,
    r: Result<seq<Target>, ResolverError>)
  {
    if Resolvable(app, deployment, services, observed) then
      && r.Ok? && StrictlyOrdered(compare, r.value)
      && multiset(r.value) == multiset(TargetsOf(observed, Names(services), Ids(services)))
    else
      r.Err? && Fault(app, deployment, services, observed) == Some(r.error)
  }

  method ResolveTargets(compare: (string, string) -> int, app: string, deployment: string, services: seq<Service>, observed: seq<Container>)
    returns (r: Result<seq<Target>, ResolverError>)
    requires TotalOrder(compare)
    ensures Resolution(compare, app, deployment, services, observed, r)
    ensures r.Ok? ==> StandFor(r.value, observed, services)
  {
    hide StandFor, TotalOrder, Resolvable, FirstFault, TargetsOf, NoTwins, Group, StrictlyOrdered;
    FaultIff(app, deployment, services, observed);
    var ids := Ids(services);
    var matched := Match(app, deployment, ids.Keys, observed);
    if matched.Err? { return Err(matched.error); }
    LabelledExpected(app, deployment, services, observed);
    var groups := GroupByService(services, matched.value);
    var resolved := ResolveServices(services, groups, matched.value, ids);
    FirstFaultOfLabelled(observed, services);
    if resolved.Err? { return resolved; }
    TargetsOfLabelled(observed, Names(services), ids);
    var sorted := Sort(compare, resolved.value);
    TargetsStandFor(compare, app, deployment, services, observed, sorted);
    r := Ok(sorted);
  }

  lemma LabelledExpected(app: string, deployment: string, services: seq<Service>, observed: seq<Container>)
    requires forall c :: c in observed ==> Expected(c, app, deployment, Names(services))
    ensures forall c :: c in Collect(Labelled, observed) ==> AppLabel(c).Some? && ServiceOf(c) in Names(services)
  {
    CollectMembers(Labelled, observed);
  }

  lemma {:induction false} FirstFaultOfLabelled(observed: seq<Container>, services: seq<Service>)
    ensures FirstFault(Collect(Labelled, observed), services) == FirstFault(observed, services)
  {
    hide GroupFault, Group;
    if services != [] {
      GroupOfLabelled(observed, services[0].name);
      FirstFaultOfLabelled(observed, services[1..]);
    }
  }

  // ---------------------------------------------------------------- what a target says

  /** The service a container belongs to is the last one declared under its name. */
  ghost predicate DeclaredAs(services: seq<Service>, name: string, id: string) {
    exists k :: 0 <= k < |services| && services[k] == Service(id, name)
                && forall j :: k < j < |services| ==> services[j].name != name
  }

  /** The replica label, trimmed, is the numeral of `n`; without one the number is 1. */
  predicate NumberedBy(labels: map<string, string>, n: int) {
    var raw := if "zcc.replica_index" in labels then Trim(labels["zcc.replica_index"]) else "";
    if raw == "" then n == 1 else n >= 1 && raw == Decimal.Print(n)
  }

  /** The target names this very container, with its state and labels, under its declared service and number. */
  ghost predicate Describes(t: Target, c: Container, services: seq<Service>) {
    && t.containerId == c.id && t.state == c.state && t.labels == c.labels
    && t.serviceName == (if "zcc.service_name" in c.labels then c.labels["zcc.service_name"] else c.serviceName)
    && DeclaredAs(services, t.serviceName, t.serviceId) && NumberedBy(c.labels, t.replica)
  }

  /** The targets stand for the labelled containers, each as often as it was observed, and for no others. */
  ghost predicate StandFor(targets: seq<Target>, observed: seq<Container>, services: seq<Service>) {
    exists origins: seq<Container> :: Origins(origins, observed) && Describe(targets, origins, services)
  }

  ghost predicate Origins(origins: seq<Container>, observed: seq<Container>) {
    forall c :: multiset(origins)[c] == if "zcc.application_id" in c.labels then multiset(observed)[c] else 0
  }

  ghost predicate Describe(targets: seq<Target>, origins: seq<Container>, services: seq<Service>) {
    |origins| == |targets| && forall k :: 0 <= k < |targets| ==> Describes(targets[k], origins[k], services)
  }

  lemma {:induction false} LastDeclared(services: seq<Service>, name: string)
    requires name in Ids(services)
    ensures DeclaredAs(services, name, Ids(services)[name])
  {
    var front, last := services[..|services| - 1], services[|services| - 1];
    assert services == front + [last];
    if last.name == name {
      assert services[|services| - 1] == Service(Ids(services)[name], name);
    } else {
      LastDeclared(front, name);
      var k :| 0 <= k < |front| && front[k] == Service(Ids(front)[name], name)
               && forall j :: k < j < |front| ==> front[j].name != name;
      assert services[k] == front[k];
      forall j | k < j < |services| ensures services[j].name != name {
        if j < |front| { assert services[j] == front[j]; }
      }
    }
  }

  /** One resolved container. */
  lemma TargetDescribes(c: Container, services: seq<Service>)
    requires ServiceOf(c) in Ids(services) && (Unnumbered(c) || Numbered(c))
    ensures Describes(TargetOf(c, Ids(services)), c, services)
  {
    LastDeclared(services, ServiceOf(c));
    if !Unnumbered(c) {
      assert ParseInt(ReplicaLabel(c)).value >= 1;
      NumberedAs(c, Replica(c));
    }
    hide DeclaredAs, Ids, Accepted, ParseInt, Decimal.Print, Trim;
  }

  lemma {:induction false} LabelledCounts(observed: seq<Container>)
    ensures Origins(Collect(Labelled, observed), observed)
  {
    if observed != [] {
      var front, last := observed[..|observed| - 1], observed[|observed| - 1];
      assert observed == front + [last];
      LabelledCounts(front);
    }
  }

  /** With every labelled container expected, targets are the labelled containers one by one. */
  lemma {:induction false} TargetsOneByOne(observed: seq<Container>, names: set<string>, ids: map<string, string>)
    requires names <= ids.Keys && forall c :: c in observed && AppLabel(c).Some? ==> ServiceOf(c) in names
    ensures var a, b := Collect(Labelled, observed), TargetsOf(observed, names, ids);
            && |a| == |b| && forall k :: 0 <= k < |a| ==> ServiceOf(a[k]) in ids && b[k] == TargetOf(a[k], ids)
  {
    hide TargetOf, ServiceOf;
    if observed != [] {
      var front, last := observed[..|observed| - 1], observed[|observed| - 1];
      assert observed == front + [last];
      TargetsOneByOne(front, names, ids);
    }
  }

  /** In a resolvable application every labelled container is numbered canonically or not at all. */
  lemma ResolvableNumbered(app: string, deployment: string, services: seq<Service>, observed: seq<Container>, c: Container)
    requires Resolvable(app, deployment, services, observed) && c in observed && AppLabel(c).Some?
    ensures ServiceOf(c) in Names(services) && (Unnumbered(c) || Numbered(c))
  {
    var service :| service in services && service.name == ServiceOf(c);
    var group := Group(observed, service.name);
    CollectMembers(Member(service.name), observed);
    assert Member(service.name)(c) == Some(c) && c in group;
    var k :| 0 <= k < |group| && group[k] == c;
    if |group| == 1 {
      if n: nat :| n >= 1 && Trim(ReplicaLabel(c)) == Decimal.Print(n) { NumberedAs(c, n); }
    } else {
      AllNumbered(group, k);
    }
  }

  /** Whatever the resolver answers with success stands for the labelled containers. */
  lemma TargetsStandFor(
    compare: (string, string) -> int, app: string, deployment: string, services: seq<Service>, observed: seq<Container>, targets: seq<Target>)
    requires Resolution(compare, app, deployment, services, observed, Ok(targets))
    ensures StandFor(targets, observed, services)
  {
    hide StrictlyOrdered, Resolvable, Names, Ids, TargetsOf, TargetOf, ServiceOf, Unnumbered, Numbered, Describes, Origins, Fault;
    var names, ids := Names(services), Ids(services);
    var accepted, made := Collect(Labelled, observed), TargetsOf(observed, names, ids);
    LabelledCounts(observed);
    AcceptedDescribed(app, deployment, services, observed);
    var origins := Rematch(accepted, made, targets);
    forall k | 0 <= k < |targets| ensures Describes(targets[k], origins[k], services) {
      var j :| 0 <= j < |accepted| && origins[k] == accepted[j] && targets[k] == made[j];
      assert Describes(made[j], accepted[j], services);
    }
    SameOrigins(accepted, origins, observed);
    assert Origins(origins, observed) && Describe(targets, origins, services);
  }

  lemma SameOrigins(a: seq<Container>, b: seq<Container>, observed: seq<Container>)
    requires Origins(a, observed) && multiset(a) == multiset(b)
    ensures Origins(b, observed)
  {
  }

  lemma AcceptedDescribed(app: string, deployment: string, services: seq<Service>, observed: seq<Container>)
    requires Resolvable(app, deployment, services, observed)
    ensures var a, b := Collect(Labelled, observed), TargetsOf(observed, Names(services), Ids(services));
            |a| == |b| && forall k :: 0 <= k < |a| ==> Describes(b[k], a[k], services)
  {
    var names, ids := Names(services), Ids(services);
    CollectMembers(Labelled, observed);
    hide Resolvable, TargetsOf, TargetOf, ServiceOf, Unnumbered, Numbered, Describes, Names, Ids;
    forall c | c in observed && AppLabel(c).Some? ensures ServiceOf(c) in names && (Unnumbered(c) || Numbered(c)) {
      ResolvableNumbered(app, deployment, services, observed, c);
    }
    TargetsOneByOne(observed, names, ids);
    var a, b := Collect(Labelled, observed), TargetsOf(observed, names, ids);
    forall k | 0 <= k < |a| ensures Describes(b[k], a[k], services) {
      assert a[k] in a;
      TargetDescribes(a[k], services);
    }
  }

  // ---------------------------------------------------------------- which fault is reported

  /** The container's label spells no positive number. */
  ghost predicate Unspelled(c: Container) {
    forall n :: n >= 1 ==> Trim(ReplicaLabel(c)) != Decimal.Print(n)
  }

  /** A label of the service's containers is at fault: malformed, missing among several, or used twice. */
  ghost predicate Misnumbered(group: seq<Container>) {
    || (|group| == 1 && Unspelled(group[0]) && Trim(ReplicaLabel(group[0])) != "")
    || (|group| > 1 && exists c :: c in group && Unspelled(c))
    || (exists i, j :: 0 <= i < j < |group| && Trim(ReplicaLabel(group[i])) == Trim(ReplicaLabel(group[j])))
  }

  lemma SpelledIff(c: Container)
    ensures Unspelled(c) <==> Unusable(c)
  {
    if !Unusable(c) {
      NumberedAs(c, Replica(c));
    }
    forall n | n >= 1 && Trim(ReplicaLabel(c)) == Decimal.Print(n) ensures !Unusable(c) { NumberedAs(c, n); }
  }

  lemma SameLabelSameNumber(c: Container, d: Container)
    requires !Unusable(c) && !Unusable(d)
    ensures Replica(c) == Replica(d) <==> Trim(ReplicaLabel(c)) == Trim(ReplicaLabel(d))
  {
    NumberedAs(c, Replica(c));
    NumberedAs(d, Replica(d));
    if Trim(ReplicaLabel(c)) == Trim(ReplicaLabel(d)) {
      Decimal.PrintInjective(Replica(c), Replica(d));
    }
  }

  lemma {:induction false} DistinctNumbers(group: seq<Container>, k: nat)
    requires k <= |group| && forall i, j :: 0 <= i < j < k ==> Replica(group[i]) != Replica(group[j])
    ensures |ReplicasUpTo(group, k)| == k
  {
    hide Replica;
    if k > 0 {
      DistinctNumbers(group, k - 1);
      OneReplicaMore(group, k - 1);
    }
  }

  lemma TwinsIff(group: seq<Container>)
    requires !SomeUnusable(group)
    ensures |Replicas(group)| < |group| <==>
              exists i, j :: 0 <= i < j < |group| && Trim(ReplicaLabel(group[i])) == Trim(ReplicaLabel(group[j]))
  {
    forall i, j | 0 <= i < j < |group|
      ensures Replica(group[i]) == Replica(group[j]) <==> Trim(ReplicaLabel(group[i])) == Trim(ReplicaLabel(group[j]))
    {
      SameLabelSameNumber(group[i], group[j]);
    }
    hide Replica, Trim, ReplicaLabel, Unusable;
    if i, j :| 0 <= i < j < |group| && Replica(group[i]) == Replica(group[j]) {
      assert Replica(group[i]) in ReplicasUpTo(group, j);
      DuplicateReplica(group, j);
    } else {
      DistinctNumbers(group, |group|);
      AllReplicas(group);
    }
  }

  /** A faulty service is reported as unexpected when a label is at fault, and as not found otherwise. */
  lemma GroupFaultKind(group: seq<Container>)
    requires GroupFault(group).Some?
    ensures GroupFault(group) == Some(if Misnumbered(group) then UnexpectedContainer else ContainerNotFound)
  {
    forall c | c in group ensures Unspelled(c) <==> Unusable(c) { SpelledIff(c); }
    if |group| == 1 {
      assert group[0] in group;
    } else if |group| > 1 {
      SomeUnspelledIff(group);
      if !SomeUnusable(group) { TwinsIff(group); }
      hide Unspelled, SomeUnusable, Replicas, Trim, ReplicaLabel;
    }
  }

  lemma SomeUnspelledIff(group: seq<Container>)
    ensures SomeUnusable(group) <==> exists c :: c in group && Unspelled(c)
  {
    forall c | c in group ensures Unspelled(c) <==> Unusable(c) { SpelledIff(c); }
    hide Unspelled, Unusable;
    if SomeUnusable(group) {
      var k :| 0 <= k < |group| && Unusable(group[k]);
      assert group[k] in group;
    }
  }

  /** The first service, in the order of declaration, that is not numbered as required. */
  ghost predicate FirstBad(observed: seq<Container>, services: seq<Service>, k: nat) {
    && k < |services| && !WellNumbered(Group(observed, services[k].name))
    && forall j :: 0 <= j < k ==> WellNumbered(Group(observed, services[j].name))
  }

  /**
   * Which error is reported: an unexpected container if some labelled container is not expected; else
   * what is wrong with the first badly numbered service, a label at fault or a number missing.
   */
  lemma FaultKind(app: string, deployment: string, services: seq<Service>, observed: seq<Container>, k: nat)
    ensures (exists c :: c in observed && !Expected(c, app, deployment, Names(services))) ==>
              Fault(app, deployment, services, observed) == Some(UnexpectedContainer)
    ensures (forall c :: c in observed ==> Expected(c, app, deployment, Names(services))) && FirstBad(observed, services, k) ==>
              Fault(app, deployment, services, observed) ==
              Some(if Misnumbered(Group(observed, services[k].name)) then UnexpectedContainer else ContainerNotFound)
  {
    hide WellNumbered, Misnumbered, Group, GroupFault, Expected;
    if !FirstBad(observed, services, k) { return; }
    forall j | 0 <= j <= k ensures GroupFault(Group(observed, services[j].name)).None? <==> WellNumbered(Group(observed, services[j].name)) {
      GroupFaultIff(Group(observed, services[j].name));
    }
    FirstFaultAt(observed, services, k);
    GroupFaultKind(Group(observed, services[k].name));
  }

  // ---------------------------------------------------------------- the order of observation is irrelevant

  lemma {:induction false} SortedUnique(compare: (string, string) -> int, a: seq<Target>, b: seq<Target>)
    requires TotalOrder(compare) && StrictlyOrdered(compare, a) && StrictlyOrdered(compare, b) && multiset(a) == multiset(b)
    ensures a == b
  {
    hide TotalOrder, StrictlyOrdered;
    SameSize(a, b);
    if a != [] {
      SameFirst(compare, a, b);
      SameRest(a, b);
      TailOrdered(compare, a);
      TailOrdered(compare, b);
      SortedUnique(compare, a[1..], b[1..]);
      assert a == [a[0]] + a[1..] && b == [b[0]] + b[1..];
    }
  }

  lemma TailOrdered(compare: (string, string) -> int, a: seq<Target>)
    requires StrictlyOrdered(compare, a) && a != []
    ensures StrictlyOrdered(compare, a[1..])
  {
  }

  lemma SameSize(a: seq<Target>, b: seq<Target>)
    requires multiset(a) == multiset(b)
    ensures |a| == |b|
  {
    assert |a| == |multiset(a)| == |multiset(b)| == |b|;
  }

  lemma SameRest(a: seq<Target>, b: seq<Target>)
    requires a != [] && b != [] && a[0] == b[0] && multiset(a) == multiset(b)
    ensures multiset(a[1..]) == multiset(b[1..])
  {
    RestOf(a);
    RestOf(b);
  }

  lemma RestOf(a: seq<Target>)
    requires a != []
    ensures multiset(a[1..]) == multiset(a) - multiset{a[0]}
  {
    assert a == [a[0]] + a[1..];
  }

  lemma SameFirst(compare: (string, string) -> int, a: seq<Target>, b: seq<Target>)
    requires TotalOrder(compare) && StrictlyOrdered(compare, a) && StrictlyOrdered(compare, b) && multiset(a) == multiset(b)
    requires a != [] && b != []
    ensures a[0] == b[0]
  {
    assert a[0] in multiset(b) && b[0] in multiset(a);
    var k :| 0 <= k < |b| && b[k] == a[0];
    var m :| 0 <= m < |a| && a[m] == b[0];
    if k > 0 && m > 0 {
      assert Before(compare, b[0], b[k]) && Before(compare, a[0], a[m]);
      BeforeTransitive(compare, a[0], b[0], a[0]);
    }
  }

  lemma GroupFaultPermutes(g: seq<Container>, h: seq<Container>)
    requires multiset(g) == multiset(h)
    ensures GroupFault(g) == GroupFault(h)
  {
    hide Unusable, Unnumbered, Numbered, Replica;
    assert |g| == |multiset(g)| == |multiset(h)| == |h|;
    assert forall c :: c in g <==> c in multiset(g);
    assert forall c :: c in h <==> c in multiset(h);
    assert Replicas(g) == Replicas(h);
    UnusablePermutes(g, h);
    UnusablePermutes(h, g);
    if |g| == 1 { assert g[0] in h; }
  }

  lemma UnusablePermutes(g: seq<Container>, h: seq<Container>)
    requires forall c :: c in g ==> c in h
    ensures SomeUnusable(g) ==> SomeUnusable(h)
  {
    hide Unusable;
    if SomeUnusable(g) {
      var k :| 0 <= k < |g| && Unusable(g[k]);
      assert g[k] in h;
    }
  }

  lemma {:induction false} FirstFaultPermutes(a: seq<Container>, b: seq<Container>, services: seq<Service>)
    requires multiset(a) == multiset(b)
    ensures FirstFault(a, services) == FirstFault(b, services)
  {
    hide GroupFault;
    if services != [] {
      CollectPermutes(Member(services[0].name), a, b);
      GroupFaultPermutes(Group(a, services[0].name), Group(b, services[0].name));
      FirstFaultPermutes(a, b, services[1..]);
    }
  }

  /** Whatever order the containers are observed in, the answer is the same. */
  lemma OrderIrrelevant(
    compare: (string, string) -> int, app: string, deployment: string, services: seq<Service>,
    a: seq<Container>, b: seq<Container>, ra: Result<seq<Target>, ResolverError>, rb: Result<seq<Target>, ResolverError>)
    requires TotalOrder(compare) && multiset(a) == multiset(b)
    requires Resolution(compare, app, deployment, services, a, ra) && Resolution(compare, app, deployment, services, b, rb)
    ensures ra == rb
  {
    hide TotalOrder, StrictlyOrdered, Resolvable, FirstFault, Expected;
    FaultIff(app, deployment, services, a);
    FaultIff(app, deployment, services, b);
    FirstFaultPermutes(a, b, services);
    assert forall c :: c in a <==> c in multiset(a);
    assert forall c :: c in b <==> c in multiset(b);
    if ra.Ok? && rb.Ok? {
      CollectPermutes(Targeted(Names(services), Ids(services)), a, b);
      SortedUnique(compare, ra.value, rb.value);
    }
  }
}
