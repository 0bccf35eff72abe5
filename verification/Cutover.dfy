/**
 * The cutover of the trust database: a source whose changes commit together, a
 * target prepared and completed in its own transactions, any number of runs,
 * crashes between any two steps, and other writers on both sides.
 */
module Cutover {
  import opened Basics

  // ---------------------------------------------------------------- rows

  datatype Table = Authorities | Issuers | Keys | Operations | Audits

  datatype Change = Inserted | Updated | Deleted

  datatype Guard = Guard(table: Table, change: Change)

  datatype Authority = Authority(id: string, auditSequence: int, columns: string)

  /** The target keeps no audit sequence. */
  datatype TargetAuthority = TargetAuthority(id: string, columns: string)

  datatype Pointers = Pointers(activeKeyId: Option<string>, pendingKeyId: Option<string>, currentOperationId: Option<string>)

  datatype Issuer = Issuer(issuerId: string, authorityId: string, pointers: Pointers, columns: string)

  datatype SourceRows = SourceRows(
    authorities: seq<Authority>, issuers: seq<Issuer>, keys: seq<string>, operations: seq<string>, audits: seq<string>)

  datatype TargetRows = TargetRows(
    authorities: seq<TargetAuthority>, issuers: seq<Issuer>, keys: seq<string>, operations: seq<string>, audits: seq<string>)

  const NoRows := TargetRows([], [], [], [], [])

  datatype Counts = Counts(authorities: nat, issuers: nat, keys: nat, operations: nat, audits: nat)

  function CountsOf(r: TargetRows): Counts {
    Counts(|r.authorities|, |r.issuers|, |r.keys|, |r.operations|, |r.audits|)
  }

  function Projected(a: seq<Authority>): seq<TargetAuthority> {
    seq(|a|, k requires 0 <= k < |a| => TargetAuthority(a[k].id, a[k].columns))
  }

  /** The rows that are copied, digested and compared. */
  function Project(r: SourceRows): TargetRows {
    TargetRows(Projected(r.authorities), r.issuers, r.keys, r.operations, r.audits)
  }

  // ---------------------------------------------------------------- what a copy keeps

  /** Table by table: everything is kept, but for the audit sequence of an authority. */
  ghost predicate Copied(r: SourceRows, t: TargetRows) {
    && t.issuers == r.issuers && t.keys == r.keys && t.operations == r.operations && t.audits == r.audits
    && |t.authorities| == |r.authorities|
    && forall k :: 0 <= k < |r.authorities| ==>
         t.authorities[k].id == r.authorities[k].id && t.authorities[k].columns == r.authorities[k].columns
  }

  /** Two sources that agree in everything a copy keeps. */
  ghost predicate SameContent(a: SourceRows, b: SourceRows) {
    && a.issuers == b.issuers && a.keys == b.keys && a.operations == b.operations && a.audits == b.audits
    && |a.authorities| == |b.authorities|
    && forall k :: 0 <= k < |a.authorities| ==>
         a.authorities[k].id == b.authorities[k].id && a.authorities[k].columns == b.authorities[k].columns
  }

  /** The counts of a receipt are those of the five tables. */
  predicate Counted(c: Counts, r: SourceRows) {
    && c.authorities == |r.authorities| && c.issuers == |r.issuers| && c.keys == |r.keys|
    && c.operations == |r.operations| && c.audits == |r.audits|
  }

  lemma ProjectCopies(r: SourceRows)
    ensures Copied(r, Project(r)) && Counted(CountsOf(Project(r)), r)
  {
  }

  /** Digests of sources agree exactly when the sources do, up to what a copy drops. */
  lemma DigestDecides(digest: Digest, a: SourceRows, b: SourceRows)
    requires Injective(digest)
    ensures digest(Project(a)) == digest(Project(b)) <==> SameContent(a, b)
  {
    if SameContent(a, b) {
      assert Project(a) == Project(b);
    }
    if digest(Project(a)) == digest(Project(b)) {
      ProjectCopies(a);
      ProjectCopies(b);
    }
  }

  /** A target is a copy of two sources only if they agree. */
  lemma CopyDetermines(a: SourceRows, b: SourceRows, t: TargetRows)
    requires Copied(a, t)
    ensures Copied(b, t) <==> SameContent(a, b)
  {
  }

  predicate SourceValid(r: SourceRows) {
    |r.authorities| == 1 && |r.issuers| == 1 && r.issuers[0].authorityId == r.authorities[0].id
  }

  // ---------------------------------------------------------------- the two databases

  datatype SourceReceipt = SourceReceipt(sourceDigest: string, targetDigest: string, counts: Counts)

  datatype Source = Source(rows: SourceRows, guards: set<Guard>, receipt: Option<SourceReceipt>)

  datatype Status = Prepared | Complete

  datatype TargetReceipt = TargetReceipt(status: Status, sourceDigest: string, targetDigest: string, counts: Counts)

  datatype Target = Target(rows: TargetRows, receipt: Option<TargetReceipt>)

  const TABLES := [Authorities, Issuers, Keys, Operations, Audits]
  const CHANGES := [Inserted, Updated, Deleted]

  function GuardsOf(t: Table): (r: set<Guard>)
    ensures forall g :: g in r ==> g.table == t
  {
    {Guard(t, Inserted), Guard(t, Updated), Guard(t, Deleted)}
  }

  function AllGuards(): set<Guard> {
    GuardsOf(Authorities) + GuardsOf(Issuers) + GuardsOf(Keys) + GuardsOf(Operations) + GuardsOf(Audits)
  }

  function GuardsUpTo(n: nat): set<Guard>
    requires n <= |TABLES|
  {
    if n == 0 then {} else GuardsUpTo(n - 1) + GuardsOf(TABLES[n - 1])
  }

  /** The guards against the first `n` kinds of change. */
  function GuardsAgainst(t: Table, n: nat): set<Guard> {
    match n
    case 0 => {}
    case 1 => {Guard(t, Inserted)}
    case 2 => {Guard(t, Inserted), Guard(t, Updated)}
    case _ => GuardsOf(t)
  }

  /** Replaces the guards of one table. */
  method InstallTableGuards(guards: set<Guard>, t: Table) returns (installed: set<Guard>)
    ensures installed == guards + GuardsOf(t)
  {
    installed := guards;
    for j := 0 to |CHANGES|
      invariant installed == guards + GuardsAgainst(t, j)
    {
      installed := installed - {Guard(t, CHANGES[j])};
      installed := installed + {Guard(t, CHANGES[j])};
    }
  }

  /** Replaces the guard of every table against every kind of change. */
  method InstallGuards(guards: set<Guard>) returns (installed: set<Guard>)
    ensures installed == guards + AllGuards()
  {
    hide GuardsOf, AllGuards;
    installed := guards;
    for i := 0 to |TABLES|
      invariant installed == guards + GuardsUpTo(i)
    {
      installed := InstallTableGuards(installed, TABLES[i]);
    }
    FiveTables();
  }

  lemma FiveTables()
    ensures GuardsUpTo(|TABLES|) == AllGuards()
  {
    hide GuardsOf;
    assert GuardsUpTo(1) == GuardsOf(Authorities);
    assert GuardsUpTo(2) == GuardsUpTo(1) + GuardsOf(Issuers);
    assert GuardsUpTo(3) == GuardsUpTo(2) + GuardsOf(Keys);
    assert GuardsUpTo(4) == GuardsUpTo(3) + GuardsOf(Operations);
    assert GuardsUpTo(5) == GuardsUpTo(4) + GuardsOf(Audits);
  }

  lemma NothingUnguarded(g: Guard)
    ensures g in AllGuards()
  {
    assert g in GuardsOf(g.table) by {
      match g.change
      case Inserted =>
      case Updated =>
      case Deleted =>
    }
    hide GuardsOf;
    match g.table
    case Authorities =>
    case Issuers =>
    case Keys =>
    case Operations =>
    case Audits =>
  }

  lemma OneTableMore(others: set<Guard>, t: Table)
    requires forall g :: g in others ==> g.table != t
    ensures |others + GuardsOf(t)| == |others| + 3
  {
  }

  /** Five tables, three kinds of change each. */
  lemma FifteenGuards()
    ensures |AllGuards()| == 15
  {
    hide GuardsOf;
    var none: set<Guard> := {};
    OneTableMore(none, Authorities);
    assert none + GuardsOf(Authorities) == GuardsOf(Authorities);
    OneTableMore(GuardsOf(Authorities), Issuers);
    OneTableMore(GuardsOf(Authorities) + GuardsOf(Issuers), Keys);
    OneTableMore(GuardsOf(Authorities) + GuardsOf(Issuers) + GuardsOf(Keys), Operations);
    OneTableMore(GuardsOf(Authorities) + GuardsOf(Issuers) + GuardsOf(Keys) + GuardsOf(Operations), Audits);
  }

  /** Copies the rows, setting issuer pointers only once the rows they point to exist. */
  method CopyRows(rows: SourceRows) returns (copied: TargetRows)
    requires forall i, j :: 0 <= i < j < |rows.issuers| ==> rows.issuers[i].issuerId != rows.issuers[j].issuerId
    ensures copied == Project(rows) && Copied(rows, copied)
  {
    var none := Pointers(None, None, None);
    var bare := seq(|rows.issuers|, k requires 0 <= k < |rows.issuers| => rows.issuers[k].(pointers := none));
    copied := TargetRows(Projected(rows.authorities), bare, [], [], []);
    for k := 0 to |rows.keys|
      invariant copied == TargetRows(Projected(rows.authorities), bare, rows.keys[..k], [], [])
    {
      copied := copied.(keys := copied.keys + [rows.keys[k]]);
    }
    for k := 0 to |rows.operations|
      invariant copied == TargetRows(Projected(rows.authorities), bare, rows.keys, rows.operations[..k], [])
    {
      copied := copied.(operations := copied.operations + [rows.operations[k]]);
    }
    for k := 0 to |rows.audits|
      invariant copied == TargetRows(Projected(rows.authorities), bare, rows.keys, rows.operations, rows.audits[..k])
    {
      copied := copied.(audits := copied.audits + [rows.audits[k]]);
    }
    var issuers := copied.issuers;
    for k := 0 to |rows.issuers|
      invariant |issuers| == |rows.issuers|
      invariant forall j :: 0 <= j < k ==> issuers[j] == rows.issuers[j]
      invariant forall j :: k <= j < |issuers| ==> issuers[j] == rows.issuers[j].(pointers := none)
    {
      issuers := PointIssuer(issuers, rows.issuers[k].issuerId, rows.issuers[k].pointers);
    }
    copied := copied.(issuers := issuers);
    assert rows.keys[..|rows.keys|] == rows.keys && rows.operations[..|rows.operations|] == rows.operations
        && rows.audits[..|rows.audits|] == rows.audits;
    ProjectCopies(rows);
  }

  /** `UPDATE ... WHERE issuerId = id`. */
  function PointIssuer(issuers: seq<Issuer>, id: string, pointers: Pointers): (r: seq<Issuer>)
    ensures |r| == |issuers|
    ensures forall k :: 0 <= k < |r| ==> r[k] == if issuers[k].issuerId == id then issuers[k].(pointers := pointers) else issuers[k]
  {
    seq(|issuers|, k requires 0 <= k < |issuers| =>
      if issuers[k].issuerId == id then issuers[k].(pointers := pointers) else issuers[k])
  }

  // ---------------------------------------------------------------- preparing the target

  type Digest = TargetRows -> string

  ghost predicate Injective(digest: Digest) {
    forall a, b :: digest(a) == digest(b) ==> a == b
  }

  /** `prepareTarget`: copies into an empty target, or recognises its own earlier copy; `None` when it throws. */
  function PrepareTarget(target: Target, rows: SourceRows, sourceDigest: string): Option<Target> {
    var expected := CountsOf(Project(rows));
    if CountsOf(target.rows) != CountsOf(NoRows) then
      if target.receipt.None? || target.receipt.value.sourceDigest != sourceDigest
         || CountsOf(target.rows) != expected || target.receipt.value.counts != expected
      then None else Some(target)
    else if target.receipt.Some? then None
    else Some(Target(Project(rows), Some(TargetReceipt(Prepared, sourceDigest, sourceDigest, expected))))
  }

  // ---------------------------------------------------------------- runs

  /** Where one run stands. The first three phases are inside the source transaction. */
  datatype Phase =
    | Guarded
    | TargetReady(sourceDigest: string)
    | Verified(sourceDigest: string, targetDigest: string)
    | SourceCommitted(sourceDigest: string, targetDigest: string)

  datatype World = World(source: Source, target: Target, runs: map<nat, Phase>)

  predicate InTransaction(w: World, run: nat) {
    run in w.runs && !w.runs[run].SourceCommitted?
  }

  datatype Step =
    | Enter(run: nat)
    | Prepare(run: nat, schemaOk: bool)
    | Verify(run: nat, foreignKeysOk: bool)
    | CommitSource(run: nat)
    | CompleteTarget(run: nat)
    | Crash(run: nat)
    | WriteSource(sourceRows: SourceRows)
    | WriteTarget(targetRows: TargetRows)

  predicate TableChanged(a: SourceRows, b: SourceRows, t: Table) {
    match t
    case Authorities => a.authorities != b.authorities
    case Issuers => a.issuers != b.issuers
    case Keys => a.keys != b.keys
    case Operations => a.operations != b.operations
    case Audits => a.audits != b.audits
  }

  /** A table can only be changed by a kind of change that is not guarded. */
  ghost predicate Unguarded(a: SourceRows, b: SourceRows, guards: set<Guard>) {
    forall t: Table :: TableChanged(a, b, t) ==> exists c: Change :: Guard(t, c) !in guards
  }

  /** The provisioning lock admits one transaction at a time, and the transaction keeps other writers out. */
  ghost predicate Enabled(w: World, s: Step) {
    match s
    case Enter(run) => run !in w.runs && forall r :: !InTransaction(w, r)
    case Prepare(run, _) => run in w.runs && w.runs[run].Guarded?
    case Verify(run, _) => run in w.runs && w.runs[run].TargetReady?
    case CommitSource(run) => run in w.runs && w.runs[run].Verified?
    case CompleteTarget(run) => run in w.runs && w.runs[run].SourceCommitted?
    case Crash(run) => run in w.runs
    case WriteSource(rows) => (forall r :: !InTransaction(w, r)) && Unguarded(w.source.rows, rows, w.source.guards)
    case WriteTarget(_) => true
  }

  function Abandon(w: World, run: nat): World {
    w.(runs := w.runs - {run})
  }

  /** The update that completes the target; it applies to one row or to none. */
  predicate Completes(target: Target, sourceDigest: string, targetDigest: string) {
    && target.receipt.Some? && target.receipt.value.status == Prepared
    && target.receipt.value.sourceDigest == sourceDigest && target.receipt.value.targetDigest == targetDigest
  }

  ghost function Apply(digest: Digest, w: World, s: Step): World
    requires Enabled(w, s)
  {
    match s
    case Enter(run) => w.(runs := w.runs[run := Guarded])
    case Prepare(run, schemaOk) =>
      var d := digest(Project(w.source.rows));
      var prepared := PrepareTarget(w.target, w.source.rows, d);
      if !schemaOk || !SourceValid(w.source.rows) || prepared.None? then Abandon(w, run)
      else w.(target := prepared.value, runs := w.runs[run := TargetReady(d)])
    case Verify(run, foreignKeysOk) =>
      var d := w.runs[run].sourceDigest;
      if digest(w.target.rows) != d || !foreignKeysOk then Abandon(w, run)
      else w.(runs := w.runs[run := Verified(d, digest(w.target.rows))])
    case CommitSource(run) =>
      var p := w.runs[run];
      var receipt := SourceReceipt(p.sourceDigest, p.targetDigest, CountsOf(Project(w.source.rows)));
      w.(source := Source(w.source.rows, w.source.guards + AllGuards(), Some(receipt)),
         runs := w.runs[run := SourceCommitted(p.sourceDigest, p.targetDigest)])
    case CompleteTarget(run) =>
      var p := w.runs[run];
      if Completes(w.target, p.sourceDigest, p.targetDigest)
      then Abandon(w.(target := w.target.(receipt := Some(w.target.receipt.value.(status := Complete)))), run)
      else Abandon(w, run)
    case Crash(run) => Abandon(w, run)
    case WriteSource(rows) => w.(source := w.source.(rows := rows))
    case WriteTarget(rows) => w.(target := w.target.(rows := rows))
  }

  /** Before any run: no receipt on either side. */
  predicate Initial(w: World) {
    w.source.receipt.None? && w.target.receipt.None? && w.runs == map[]
  }

  /** The world after the first `n` steps, while every step is enabled. */
  ghost function WorldAt(digest: Digest, w: World, steps: seq<Step>, n: nat): Option<World>
    requires n <= |steps|
  {
    if n == 0 then Some(w)
    else
      var before := WorldAt(digest, w, steps, n - 1);
      if before.Some? && Enabled(before.value, steps[n - 1]) then Some(Apply(digest, before.value, steps[n - 1])) else None
  }

  // ---------------------------------------------------------------- what every run keeps

  /** A source receipt stands for the present rows, and all guards are in place. */
  ghost predicate SourceSettled(digest: Digest, w: World) {
    w.source.receipt.Some? ==>
      && w.source.guards >= AllGuards()
      && w.source.receipt.value.sourceDigest == digest(Project(w.source.rows)) == w.source.receipt.value.targetDigest
      && Counted(w.source.receipt.value.counts, w.source.rows) && SourceValid(w.source.rows)
  }

  /** The receipt a run past its commit will complete. */
  ghost predicate CommitsRecorded(w: World) {
    forall r :: r in w.runs && w.runs[r].SourceCommitted? ==>
      && w.source.receipt.Some?
      && w.source.receipt.value.sourceDigest == w.runs[r].sourceDigest
      && w.source.receipt.value.targetDigest == w.runs[r].targetDigest
  }

  /** Inside the transaction the digest is the one of the present rows, and at most one run is there. */
  ghost predicate TransactionsCurrent(digest: Digest, w: World) {
    && (forall r :: InTransaction(w, r) && !w.runs[r].Guarded? ==>
          w.runs[r].sourceDigest == digest(Project(w.source.rows)) && SourceValid(w.source.rows))
    && (forall r :: r in w.runs && w.runs[r].Verified? ==> w.runs[r].targetDigest == w.runs[r].sourceDigest)
    && (forall q, r :: InTransaction(w, q) && InTransaction(w, r) ==> q == r)
  }

  ghost predicate CompleteRecorded(w: World) {
    w.target.receipt.Some? && w.target.receipt.value.status == Complete ==>
      && w.source.receipt.Some?
      && w.source.receipt.value.sourceDigest == w.target.receipt.value.sourceDigest
      && w.source.receipt.value.targetDigest == w.target.receipt.value.targetDigest
  }

  ghost predicate Consistent(digest: Digest, w: World) {
    SourceSettled(digest, w) && CommitsRecorded(w) && TransactionsCurrent(digest, w) && CompleteRecorded(w)
  }

  lemma GuardedRowsStay(a: SourceRows, b: SourceRows, guards: set<Guard>)
    requires guards >= AllGuards() && Unguarded(a, b, guards)
    ensures a == b
  {
    forall t: Table ensures !TableChanged(a, b, t) {
      forall c: Change ensures Guard(t, c) in guards { NothingUnguarded(Guard(t, c)); }
    }
    assert !TableChanged(a, b, Authorities) && !TableChanged(a, b, Issuers) && !TableChanged(a, b, Keys)
        && !TableChanged(a, b, Operations) && !TableChanged(a, b, Audits);
  }

  lemma SourceStaysSettled(digest: Digest, w: World, s: Step)
    requires Enabled(w, s) && SourceSettled(digest, w) && TransactionsCurrent(digest, w)
    ensures SourceSettled(digest, Apply(digest, w, s))
  {
    ProjectCopies(w.source.rows);
    hide AllGuards, Project, Copied;
    if s.WriteSource? && w.source.receipt.Some? {
      GuardedRowsStay(w.source.rows, s.sourceRows, w.source.guards);
    } else if s.CommitSource? {
      assert InTransaction(w, s.run);
    }
  }

  lemma CommitsStayRecorded(digest: Digest, w: World, s: Step)
    requires Enabled(w, s) && SourceSettled(digest, w) && CommitsRecorded(w) && TransactionsCurrent(digest, w)
    ensures CommitsRecorded(Apply(digest, w, s))
  {
    hide AllGuards, Project;
    if s.CommitSource? {
      assert InTransaction(w, s.run);
    }
  }

  lemma TransactionsStayCurrent(digest: Digest, w: World, s: Step)
    requires Enabled(w, s) && TransactionsCurrent(digest, w)
    ensures TransactionsCurrent(digest, Apply(digest, w, s))
  {
    hide AllGuards, Project, PrepareTarget, Unguarded;
    var t := Apply(digest, w, s);
    forall r | InTransaction(t, r) ensures InTransaction(w, r) || (s.Enter? && r == s.run) {}
    if s.Prepare? || s.Verify? || s.CommitSource? {
      assert InTransaction(w, s.run);
      forall r | InTransaction(t, r) ensures r == s.run {}
    }
  }

  lemma CompletionStaysRecorded(digest: Digest, w: World, s: Step)
    requires Enabled(w, s) && Consistent(digest, w)
    ensures CompleteRecorded(Apply(digest, w, s))
  {
    hide AllGuards, Project;
    if s.CommitSource? {
      assert InTransaction(w, s.run);
    }
  }

  lemma StepKeepsConsistent(digest: Digest, w: World, s: Step)
    requires Enabled(w, s) && Consistent(digest, w)
    ensures Consistent(digest, Apply(digest, w, s))
  {
    CompletionStaysRecorded(digest, w, s);
    hide SourceSettled, CommitsRecorded, TransactionsCurrent, CompleteRecorded, Enabled, Apply;
    SourceStaysSettled(digest, w, s);
    CommitsStayRecorded(digest, w, s);
    TransactionsStayCurrent(digest, w, s);
  }

  lemma {:induction false} AlwaysConsistent(digest: Digest, w: World, steps: seq<Step>, n: nat)
    requires Initial(w) && n <= |steps| && WorldAt(digest, w, steps, n).Some?
    ensures Consistent(digest, WorldAt(digest, w, steps, n).value)
  {
    if n > 0 {
      hide Enabled, Apply, Consistent;
      AlwaysConsistent(digest, w, steps, n - 1);
      StepKeepsConsistent(digest, WorldAt(digest, w, steps, n - 1).value, steps[n - 1]);
    }
  }

  // ---------------------------------------------------------------- completion means a frozen source

  predicate IsComplete(t: Target) {
    t.receipt.Some? && t.receipt.value.status == Complete
  }

  /** A completed target has a committed source receipt with its digest, over rows that all guards protect. */
  lemma CompleteMeansCommitted(digest: Digest, w: World, steps: seq<Step>, n: nat)
    requires Initial(w) && n <= |steps| && WorldAt(digest, w, steps, n).Some?
    requires IsComplete(WorldAt(digest, w, steps, n).value.target)
    ensures var now := WorldAt(digest, w, steps, n).value;
            && now.source.receipt.Some?
            && now.source.receipt.value.sourceDigest == now.target.receipt.value.sourceDigest
            && now.source.receipt.value.targetDigest == now.target.receipt.value.targetDigest
            && now.target.receipt.value.sourceDigest == digest(Project(now.source.rows))
            && Counted(now.source.receipt.value.counts, now.source.rows)
            && |now.source.rows.authorities| == 1 && |now.source.rows.issuers| == 1
            && now.source.rows.issuers[0].authorityId == now.source.rows.authorities[0].id
            && now.source.guards >= AllGuards() && |AllGuards()| == 15
  {
    AlwaysConsistent(digest, w, steps, n);
    FifteenGuards();
  }

  /** Once committed, the source's rows and receipt digest stay; once completed, the target stays so. */
  ghost predicate Frozen(a: World, b: World) {
    && (a.source.receipt.Some? ==>
          && b.source.receipt.Some? && b.source.rows == a.source.rows
          && b.source.receipt.value.sourceDigest == a.source.receipt.value.sourceDigest)
    && (IsComplete(a.target) ==> b.target.receipt == a.target.receipt)
  }

  lemma StepFreezes(digest: Digest, w: World, s: Step)
    requires Enabled(w, s) && Consistent(digest, w)
    ensures Frozen(w, Apply(digest, w, s))
  {
    hide AllGuards, Project;
    if s.WriteSource? && w.source.receipt.Some? {
      GuardedRowsStay(w.source.rows, s.sourceRows, w.source.guards);
    }
    if s.CommitSource? { assert InTransaction(w, s.run); }
  }

  lemma {:induction false} SourceIsFrozen(digest: Digest, w: World, steps: seq<Step>, i: nat, j: nat)
    requires Initial(w) && i <= j <= |steps| && WorldAt(digest, w, steps, j).Some?
    ensures WorldAt(digest, w, steps, i).Some?
    ensures Frozen(WorldAt(digest, w, steps, i).value, WorldAt(digest, w, steps, j).value)
    decreases j
  {
    hide Consistent, Enabled, Apply, Frozen;
    if i < j {
      SourceIsFrozen(digest, w, steps, i, j - 1);
      AlwaysConsistent(digest, w, steps, j - 1);
      var last := WorldAt(digest, w, steps, j - 1).value;
      StepFreezes(digest, last, steps[j - 1]);
      FrozenTransitive(WorldAt(digest, w, steps, i).value, last, Apply(digest, last, steps[j - 1]));
    } else {
      StaysFrozen(WorldAt(digest, w, steps, i).value);
    }
  }

  lemma FrozenTransitive(a: World, b: World, c: World)
    requires Frozen(a, b) && Frozen(b, c)
    ensures Frozen(a, c)
  {
  }

  lemma StaysFrozen(w: World)
    ensures Frozen(w, w)
  {
  }

  /** A prepared target holds the rows its receipt was written for. */
  ghost predicate CopyKept(digest: Digest, w: World) {
    w.target.receipt.Some? ==>
      digest(w.target.rows) == w.target.receipt.value.sourceDigest && w.target.receipt.value.counts == CountsOf(w.target.rows)
  }

  lemma {:induction false} CopyStays(digest: Digest, w: World, steps: seq<Step>, n: nat)
    requires Initial(w) && n <= |steps| && WorldAt(digest, w, steps, n).Some?
    requires forall k :: 0 <= k < n ==> !steps[k].WriteTarget?
    ensures CopyKept(digest, WorldAt(digest, w, steps, n).value)
  {
    hide Enabled, Project;
    if n > 0 {
      CopyStays(digest, w, steps, n - 1);
    }
  }

  /** Over any runs and crashes, as long as nobody else writes to it, a completed target is a copy of the source. */
  lemma CompleteMeansCopied(digest: Digest, w: World, steps: seq<Step>, n: nat)
    requires Injective(digest) && Initial(w) && n <= |steps| && WorldAt(digest, w, steps, n).Some?
    requires forall k :: 0 <= k < n ==> !steps[k].WriteTarget?
    requires IsComplete(WorldAt(digest, w, steps, n).value.target)
    ensures var now := WorldAt(digest, w, steps, n).value;
            && now.target.rows == Project(now.source.rows) && Copied(now.source.rows, now.target.rows)
            && Counted(now.target.receipt.value.counts, now.source.rows)
  {
    hide Enabled, Apply, Project, Copied, Counted;
    CopyStays(digest, w, steps, n);
    CompleteMeansCommitted(digest, w, steps, n);
    ProjectCopies(WorldAt(digest, w, steps, n).value.source.rows);
  }

  /** What a verified run found in the target is the source's rows. */
  lemma VerifiedCopy(digest: Digest, w: World, run: nat, foreignKeysOk: bool)
    requires Injective(digest) && TransactionsCurrent(digest, w) && Enabled(w, Verify(run, foreignKeysOk))
    requires run in Apply(digest, w, Verify(run, foreignKeysOk)).runs
    ensures w.target.rows == Project(w.source.rows) && Copied(w.source.rows, w.target.rows) && foreignKeysOk
  {
    assert InTransaction(w, run);
    ProjectCopies(w.source.rows);
  }

  // ---------------------------------------------------------------- when a run succeeds

  /** One uninterrupted run of a process on its own, and whether it reports success. */
  ghost function Attempt(digest: Digest, w: World, run: nat): (World, bool)
    requires w.runs == map[]
  {
    var w1 := Apply(digest, w, Enter(run));
    var w2 := Apply(digest, w1, Prepare(run, true));
    if run !in w2.runs then (w2, false)
    else
      var w3 := Apply(digest, w2, Verify(run, true));
      if run !in w3.runs then (w3, false)
      else
        var w4 := Apply(digest, w3, CommitSource(run));
        (Apply(digest, w4, CompleteTarget(run)), Completes(w4.target, w4.runs[run].sourceDigest, w4.runs[run].targetDigest))
  }

  /** Nothing was copied yet. */
  predicate Blank(t: Target) {
    CountsOf(t.rows) == CountsOf(NoRows) && t.receipt.None?
  }

  /** The target holds exactly the copy an earlier run of the same rows prepared. */
  ghost predicate PreparedCopy(digest: Digest, w: World) {
    var rows := Project(w.source.rows);
    w.target == Target(rows, Some(TargetReceipt(Prepared, digest(rows), digest(rows), CountsOf(rows))))
  }

  lemma AttemptSucceedsIff(digest: Digest, w: World, run: nat)
    requires Injective(digest) && w.runs == map[]
    ensures Attempt(digest, w, run).1 <==> SourceValid(w.source.rows) && (Blank(w.target) || PreparedCopy(digest, w))
    ensures Attempt(digest, w, run).1 ==>
              var after := Attempt(digest, w, run).0;
              IsComplete(after.target) && Copied(w.source.rows, after.target.rows) && after.source.rows == w.source.rows
  {
    ProjectCopies(w.source.rows);
    hide Copied, Counted, AllGuards, Project, Injective, PrepareTarget, Passes, Blank, PreparedCopy, SourceValid;
    if SourceValid(w.source.rows) {
      PassesIff(digest, w);
      PassedCopy(digest, w);
    }
    AttemptIs(digest, w, run);
  }

  /** An attempt is the checks one after the other. */
  lemma AttemptIs(digest: Digest, w: World, run: nat)
    requires w.runs == map[]
    ensures var prepared := PrepareTarget(w.target, w.source.rows, digest(Project(w.source.rows)));
            var after := Attempt(digest, w, run);
            && (after.1 <==> SourceValid(w.source.rows) && prepared.Some? && Passes(digest, w.source.rows, prepared.value))
            && after.0.source.rows == w.source.rows
            && (after.1 ==> IsComplete(after.0.target) && after.0.target.rows == prepared.value.rows)
  {
    hide AllGuards, Project, SourceValid, PrepareTarget;
  }

  lemma PassedCopy(digest: Digest, w: World)
    requires Injective(digest)
    ensures var prepared := PrepareTarget(w.target, w.source.rows, digest(Project(w.source.rows)));
            prepared.Some? && Passes(digest, w.source.rows, prepared.value) ==> prepared.value.rows == Project(w.source.rows)
  {
    hide Project, PrepareTarget;
  }

  /** A run after completion fails and changes neither rows, digests nor the target's receipt. */
  lemma RerunFails(digest: Digest, w: World, run: nat)
    requires Injective(digest) && Consistent(digest, w) && w.runs == map[] && IsComplete(w.target)
    ensures !Attempt(digest, w, run).1
    ensures var after := Attempt(digest, w, run).0;
            && after.target == w.target && after.source.rows == w.source.rows && after.source.receipt.Some?
            && after.source.receipt.value.sourceDigest == w.source.receipt.value.sourceDigest
  {
    hide AllGuards, Project;
  }

  // ---------------------------------------------------------------- the program

  datatype Outcome = Completed | Crashed | Failed

  class Databases {
    var source: Source
    var target: Target

    constructor (source: Source, target: Target)
      ensures this.source == source && this.target == target
    {
      this.source, this.target := source, target;
    }
  }

  lemma OneStepMore(digest: Digest, w: World, steps: seq<Step>, s: Step)
    requires WorldAt(digest, w, steps, |steps|).Some? && Enabled(WorldAt(digest, w, steps, |steps|).value, s)
    ensures WorldAt(digest, w, steps + [s], |steps| + 1) == Some(Apply(digest, WorldAt(digest, w, steps, |steps|).value, s))
  {
    SameStart(digest, w, steps, steps + [s], |steps|);
  }

  lemma {:induction false} SameStart(digest: Digest, w: World, a: seq<Step>, b: seq<Step>, n: nat)
    requires n <= |a| && n <= |b| && a[..n] == b[..n]
    ensures WorldAt(digest, w, a, n) == WorldAt(digest, w, b, n)
  {
    if n > 0 {
      assert a[..n - 1] == a[..n][..n - 1] == b[..n - 1];
      assert a[n - 1] == a[..n][n - 1] == b[n - 1];
      SameStart(digest, w, a, b, n - 1);
    }
  }

  /** The target's own transaction. */
  method PrepareInto(target: Target, rows: SourceRows, sourceDigest: string) returns (r: Option<Target>)
    requires |rows.issuers| == 1
    ensures r == PrepareTarget(target, rows, sourceDigest)
  {
    var expected := CountsOf(Project(rows));
    if CountsOf(target.rows) != CountsOf(NoRows) {
      if target.receipt.None? || target.receipt.value.sourceDigest != sourceDigest
         || CountsOf(target.rows) != expected || target.receipt.value.counts != expected {
        return None;
      }
      return Some(target);
    }
    var copied := CopyRows(rows);
    if target.receipt.Some? { return None; }
    r := Some(Target(copied, Some(TargetReceipt(Prepared, sourceDigest, sourceDigest, expected))));
  }

  ghost predicate Reached(digest: Digest, w: World, steps: seq<Step>, now: World) {
    WorldAt(digest, w, steps, |steps|) == Some(now)
  }

  /** A world in which only run 0 is under way, or none. */
  function Alone(source: Source, target: Target, phase: Option<Phase>): World {
    World(source, target, if phase.Some? then map[0 := phase.value] else map[])
  }

  lemma Steps(digest: Digest, w: World, steps: seq<Step>, source: Source, target: Target, phase: Option<Phase>, s: Step,
              source': Source, target': Target, phase': Option<Phase>)
    requires Reached(digest, w, steps, Alone(source, target, phase)) && Enabled(Alone(source, target, phase), s)
    requires var next := Apply(digest, Alone(source, target, phase), s);
             next.source == source' && next.target == target' && next.runs == Alone(source', target', phase').runs
    ensures Reached(digest, w, steps + [s], Alone(source', target', phase'))
  {
    hide Apply, Enabled;
    OneStepMore(digest, w, steps, s);
  }

  lemma Killed(digest: Digest, w: World, steps: seq<Step>, source: Source, target: Target, phase: Phase)
    requires Reached(digest, w, steps, Alone(source, target, Some(phase)))
    ensures Reached(digest, w, steps + [Crash(0)], Alone(source, target, None))
  {
    assert map[0 := phase] - {0} == map[];
    Steps(digest, w, steps, source, target, Some(phase), Crash(0), source, target, None);
  }

  /** The guards and the target's copy: the first two steps. */
  method Begin(db: Databases, digest: Digest, schemaOk: bool, crashAt: nat)
    returns (r: Outcome, ghost script: seq<Step>, guards: set<Guard>)
    requires crashAt > 0
    modifies db`target
    ensures guards == db.source.guards + AllGuards()
    ensures var w := World(old(db.source), old(db.target), map[]);
            var d := digest(Project(db.source.rows));
            Reached(digest, w, script, Alone(db.source, db.target, if r == Completed then Some(TargetReady(d)) else None))
    ensures var prepared := PrepareTarget(old(db.target), db.source.rows, digest(Project(db.source.rows)));
            && (r == Completed <==> crashAt > 2 && schemaOk && SourceValid(db.source.rows) && prepared.Some?)
            && (r == Completed ==> Some(db.target) == prepared)
  {
    guards := InstallGuards(db.source.guards);
    hide AllGuards, Project, Reached, PrepareTarget;
    ghost var w := World(db.source, db.target, map[]);
    var rows := db.source.rows;
    var d := digest(Project(rows));
    assert Reached(digest, w, [], Alone(db.source, db.target, None)) by { Started(digest, db.source, db.target); }
    Steps(digest, w, [], db.source, db.target, None, Enter(0), db.source, db.target, Some(Guarded));
    script := [] + [Enter(0)];
    if crashAt == 1 {
      Killed(digest, w, script, db.source, db.target, Guarded);
      return Crashed, script + [Crash(0)], guards;
    }
    assert map[0 := Guarded] - {0} == map[] && map[0 := Guarded][0 := TargetReady(d)] == map[0 := TargetReady(d)];
    if !schemaOk || !SourceValid(rows) {
      Steps(digest, w, script, db.source, db.target, Some(Guarded), Prepare(0, schemaOk), db.source, db.target, None);
      return Failed, script + [Prepare(0, schemaOk)], guards;
    }
    var prepared := PrepareInto(db.target, rows, d);
    if prepared.None? {
      Steps(digest, w, script, db.source, db.target, Some(Guarded), Prepare(0, schemaOk), db.source, db.target, None);
      return Failed, script + [Prepare(0, schemaOk)], guards;
    }
    Steps(digest, w, script, db.source, db.target, Some(Guarded), Prepare(0, schemaOk), db.source, prepared.value, Some(TargetReady(d)));
    script := script + [Prepare(0, schemaOk)];
    db.target := prepared.value;
    if crashAt == 2 {
      Killed(digest, w, script, db.source, db.target, TargetReady(d));
      return Crashed, script + [Crash(0)], guards;
    }
    r := Completed;
  }

  lemma Started(digest: Digest, source: Source, target: Target)
    ensures Reached(digest, World(source, target, map[]), [], Alone(source, target, None))
  {
  }

  /** Verification, the source's commit and the target's completion: the last three steps. */
  method Finish(db: Databases, digest: Digest, foreignKeysOk: bool, guards: set<Guard>, crashAt: nat, ghost w: World, ghost before: seq<Step>)
    returns (r: Outcome, ghost script: seq<Step>)
    requires crashAt > 2 && guards == db.source.guards + AllGuards()
    requires Reached(digest, w, before, Alone(db.source, db.target, Some(TargetReady(digest(Project(db.source.rows))))))
    modifies db
    ensures Reached(digest, w, script, Alone(db.source, db.target, None))
    ensures r == Completed <==>
              crashAt > 4 && foreignKeysOk && old(Passes(digest, db.source.rows, db.target))
    ensures r == Completed ==> IsComplete(db.target)
    ensures db.source.rows == old(db.source.rows) && db.target.rows == old(db.target.rows)
  {
    hide AllGuards, Project, Reached;
    var rows := db.source.rows;
    var d, targetDigest := digest(Project(rows)), digest(db.target.rows);
    assert map[0 := TargetReady(d)] - {0} == map[];
    if targetDigest != d || !foreignKeysOk {
      Steps(digest, w, before, db.source, db.target, Some(TargetReady(d)), Verify(0, foreignKeysOk), db.source, db.target, None);
      return Failed, before + [Verify(0, foreignKeysOk)];
    }
    assert map[0 := TargetReady(d)][0 := Verified(d, d)] == map[0 := Verified(d, d)];
    Steps(digest, w, before, db.source, db.target, Some(TargetReady(d)), Verify(0, foreignKeysOk), db.source, db.target, Some(Verified(d, d)));
    script := before + [Verify(0, foreignKeysOk)];
    if crashAt == 3 {
      Killed(digest, w, script, db.source, db.target, Verified(d, d));
      return Crashed, script + [Crash(0)];
    }
    r, script := Commit(db, digest, guards, crashAt, w, script);
  }

  /** The target passes verification and its receipt can be completed. */
  ghost predicate Passes(digest: Digest, rows: SourceRows, target: Target) {
    var d := digest(Project(rows));
    digest(target.rows) == d && Completes(target, d, d)
  }

  method Commit(db: Databases, digest: Digest, guards: set<Guard>, crashAt: nat, ghost w: World, ghost before: seq<Step>)
    returns (r: Outcome, ghost script: seq<Step>)
    requires crashAt > 3 && guards == db.source.guards + AllGuards()
    requires var d := digest(Project(db.source.rows)); Reached(digest, w, before, Alone(db.source, db.target, Some(Verified(d, d))))
    modifies db
    ensures Reached(digest, w, script, Alone(db.source, db.target, None))
    ensures var d := digest(Project(old(db.source.rows))); r == Completed <==> crashAt > 4 && Completes(old(db.target), d, d)
    ensures r == Completed ==> IsComplete(db.target)
    ensures db.source.rows == old(db.source.rows) && db.target.rows == old(db.target.rows)
  {
    hide AllGuards, Project, Reached;
    var rows := db.source.rows;
    var d := digest(Project(rows));
    var committed := Source(rows, guards, Some(SourceReceipt(d, d, CountsOf(Project(rows)))));
    assert map[0 := Verified(d, d)][0 := SourceCommitted(d, d)] == map[0 := SourceCommitted(d, d)];
    Steps(digest, w, before, db.source, db.target, Some(Verified(d, d)), CommitSource(0), committed, db.target, Some(SourceCommitted(d, d)));
    db.source := committed;
    script := before + [CommitSource(0)];
    if crashAt == 4 {
      Killed(digest, w, script, db.source, db.target, SourceCommitted(d, d));
      return Crashed, script + [Crash(0)];
    }
    assert map[0 := SourceCommitted(d, d)] - {0} == map[];
    var completes := Completes(db.target, d, d);
    var completed := if completes then db.target.(receipt := Some(db.target.receipt.value.(status := Complete))) else db.target;
    Steps(digest, w, script, db.source, db.target, Some(SourceCommitted(d, d)), CompleteTarget(0), db.source, completed, None);
    db.target := completed;
    script := script + [CompleteTarget(0)];
    r := if completes then Completed else Failed;
  }

  /** The checks along the way amount to: a blank target, or this source's own prepared copy. */
  lemma PassesIff(digest: Digest, w: World)
    requires Injective(digest) && SourceValid(w.source.rows)
    ensures var prepared := PrepareTarget(w.target, w.source.rows, digest(Project(w.source.rows)));
            prepared.Some? && Passes(digest, w.source.rows, prepared.value) <==> Blank(w.target) || PreparedCopy(digest, w)
  {
    assert |Project(w.source.rows).authorities| == 1;
    hide Project;
  }

  /**
   * The cutover itself, killed after `crashAt` of its five steps. What it leaves in the two
   * databases is what the steps of `script` leave.
   */
  method Run(db: Databases, digest: Digest, schemaOk: bool, foreignKeysOk: bool, crashAt: nat) returns (r: Outcome, ghost script: seq<Step>)
    requires Injective(digest)
    modifies db
    ensures Reached(digest, World(old(db.source), old(db.target), map[]), script, World(db.source, db.target, map[]))
    ensures var w := World(old(db.source), old(db.target), map[]);
            r == Completed <==>
              && crashAt >= 5 && schemaOk && foreignKeysOk && SourceValid(w.source.rows)
              && (Blank(w.target) || PreparedCopy(digest, w))
    ensures r == Completed ==> IsComplete(db.target) && db.source.rows == old(db.source.rows) && Copied(db.source.rows, db.target.rows)
  {
    ProjectCopies(db.source.rows);
    hide Copied, Counted, AllGuards, Project, Reached, PrepareTarget, Passes, Injective, Blank, PreparedCopy, SourceValid;
    ghost var w := World(db.source, db.target, map[]);
    PassedCopy(digest, w);
    if crashAt == 0 {
      Started(digest, db.source, db.target);
      return Crashed, [];
    }
    if SourceValid(db.source.rows) { PassesIff(digest, w); }
    var guards;
    r, script, guards := Begin(db, digest, schemaOk, crashAt);
    if r == Completed {
      r, script := Finish(db, digest, foreignKeysOk, guards, crashAt, w, script);
    }
  }
}
