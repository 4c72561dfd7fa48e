/** The rows that belong to one server in the four tables `servers`,
    `server_instances`, `compute_instances` and `snapshots`, and every SQL
    statement the repositories send to change them once the server exists, each
    an atomic function on those rows. Certificates and failure messages of
    compute rows are no columns here, so `record_agent_certificate` and
    `record_failure` are one statement, `NoteCompute`, that moves the time; what
    the first does to the certificate is in Enrolment.

    No statement touches the rows of two servers, so the whole database is one
    such slice per server. Instance and compute rows are kept in insertion
    order; the position of a row stands for its random UUID. Clock readings are
    arbitrary non-negative milliseconds and may go backwards. */
module Database {
  import opened Domain

  datatype Terminal = Completed | Deleted | Failed

  datatype Provider = LocalProcess | AkamaiVm

  datatype Instance = Instance(
    generation: nat,
    spec: Spec,
    token: nat,
    source: Option<SnapshotId>,
    preparedAt: Option<nat>,
    running: bool,
    observedAt: Option<nat>,
    result: Option<SnapshotId>,
    stopAt: Option<nat>,
    terminatedAt: Option<nat>,
    terminal: Option<Terminal>,
    createdAt: nat,
    updatedAt: nat)
  {
    predicate Active() { terminatedAt.None? }

    // Nothing on the machine of this instance is worth keeping.
    predicate SafeToDiscard() { preparedAt.None? || result.Some? }
  }

  datatype Compute = Compute(
    instance: nat,
    provider: Provider,
    machine: Option<nat>,
    connectedAt: Option<nat>,
    shutdownAt: Option<nat>,
    terminatedAt: Option<nat>,
    terminal: Option<Terminal>,
    createdAt: nat,
    updatedAt: nat)
  {
    predicate Active() { terminatedAt.None? }
  }

  datatype Snapshot = Snapshot(id: SnapshotId, instance: nat, token: nat, createdAt: nat)

  datatype Db = Db(
    server: Server,
    instances: seq<Instance>,
    computes: seq<Compute>,
    snapshots: seq<Snapshot>)

  // ---------------------------------------------------------------- reads

  predicate HasActive(instances: seq<Instance>) {
    exists k :: 0 <= k < |instances| && instances[k].Active()
  }

  predicate HasActiveCompute(computes: seq<Compute>, i: nat) {
    exists c :: 0 <= c < |computes| && computes[c].instance == i && computes[c].Active()
  }

  predicate Blank(id: string) {
    forall k :: 0 <= k < |id| ==> id[k] in {' ', '\t', '\r', '\n'}
  }

  predicate ValidSnapshotId(id: string) {
    !Blank(id) && |id| <= 256 && '\0' !in id
  }

  // ----------------------------------------------------------- statements

  function Stamp(now: nat, createdAt: nat, updatedAt: nat): nat {
    Max(now, Max(updatedAt, createdAt))
  }

  function LatestUpdate(instances: seq<Instance>): nat {
    if |instances| == 0 then 0
    else Max(instances[|instances| - 1].updatedAt, LatestUpdate(instances[..|instances| - 1]))
  }

  datatype Publication =
    | Published
    | AlreadyPublished
    | InvalidId
    | NoSuchInstance
    | Stale
    | PublishedAnother
    | DuplicateRow

  // What `SnapshotRepository::commit` answers.
  function Outcome(db: Db, i: nat, token: nat, id: SnapshotId): Publication {
    if !ValidSnapshotId(id) then InvalidId
    else if i >= |db.instances| then NoSuchInstance
    else if db.instances[i].token != token || !db.instances[i].Active() then Stale
    else if db.instances[i].result == Some(id) then AlreadyPublished
    else if db.instances[i].result.Some? then PublishedAnother
    else if exists m :: 0 <= m < |db.snapshots| && (db.snapshots[m].id == id || db.snapshots[m].token == token)
    then DuplicateRow
    else Published
  }

  datatype Statement =
    | CreateInstance(now: nat)
    | RequestStop(i: nat, now: nat)
    | MarkPrepared(i: nat, now: nat)
    | ObserveProcess(i: nat, running: bool, now: nat)
    | RecordError(i: nat, now: nat)
    | Complete(i: nat, terminal: Terminal, now: nat)
    | Commit(i: nat, token: nat, id: SnapshotId, now: nat)
    | UpdateDesired(read: Server, desired: DesiredState, now: nat)
    | UpdateSpec(read: Server, wanted: DesiredSpec, now: nat)
    | Archive(read: Server, now: nat)
    | CreateCompute(i: nat, provider: Provider, now: nat)
    | RecordMachine(c: nat, machine: nat, now: nat)
    | Authenticate(c: nat, now: nat)
    | NoteCompute(c: nat, now: nat)
    | RequestShutdown(c: nat, now: nat)
    | TerminateCompute(c: nat, terminal: Terminal, now: nat)

  // Compare-and-swap updates of the server row.
  predicate IsEdit(st: Statement) {
    st.UpdateDesired? || st.UpdateSpec? || st.Archive?
  }

  // Guarded updates of one instance row.
  predicate OnInstance(st: Statement) {
    st.RequestStop? || st.MarkPrepared? || st.ObserveProcess? || st.RecordError? || st.Complete?
  }

  // Guarded updates of one compute row.
  predicate OnCompute(st: Statement) {
    st.RecordMachine? || st.Authenticate? || st.NoteCompute? || st.RequestShutdown? || st.TerminateCompute?
  }

  // Those sent on behalf of an agent that enrols or registers.
  predicate ByAgent(st: Statement) {
    st.Authenticate? || st.NoteCompute?
  }

  // The edit a client statement carries, computed from the row it read earlier.
  function EditOf(st: Statement): Edit
    requires IsEdit(st)
  {
    match st
    case UpdateDesired(read, desired, now) => SetDesired(read, desired, now)
    case UpdateSpec(read, wanted, now) =>
      var spec := Resolve(wanted, Some(read.spec.data), None);
      if spec.Err? then Err(spec.error) else SetSpec(read, spec.value, now)
    case Archive(read, now) => SetArchived(read, now)
  }

  // The WHERE clause of the three compare-and-swap updates.
  predicate EditApplies(db: Db, st: Statement)
    requires IsEdit(st)
  {
    && EditOf(st).Ok?
    && EditOf(st).value.Some?
    && db.server.generation == st.read.generation
    && db.server.archivedAt.None?
    && (st.UpdateDesired? || db.server.desired == Stopped)
    && (st.Archive? ==> !HasActive(db.instances))
  }

  // The SET clause writes only the columns the edit is about.
  function Edited(db: Db, st: Statement): Server
    requires IsEdit(st) && EditApplies(db, st)
  {
    var edit := EditOf(st).value.value;
    var s := db.server.(generation := edit.generation, updatedAt := edit.updatedAt);
    match st
    case UpdateDesired(_, _, _) => s.(desired := edit.desired)
    case UpdateSpec(_, _, _) => s.(spec := edit.spec)
    case Archive(_, _) => s.(archivedAt := edit.archivedAt)
  }

  function ProviderOf(spec: ComputeSpec): Provider {
    if spec.Local? then LocalProcess else AkamaiVm
  }

  predicate CreateApplies(db: Db) {
    db.server.desired == Running && !HasActive(db.instances)
  }

  function NewInstance(db: Db, now: nat): Instance {
    var at := Max(now, Max(db.server.updatedAt, LatestUpdate(db.instances)));
    Instance(db.server.generation, db.server.spec, db.server.nextToken, db.server.current,
             None, false, None, None, None, None, None, at, at)
  }

  // The SET clause of a guarded update of one instance row.
  function InstanceUpdate(r: Instance, st: Statement): Instance
    requires OnInstance(st)
  {
    var at := Stamp(st.now, r.createdAt, r.updatedAt);
    match st
    case RequestStop(_, _) => if r.stopAt.Some? then r else r.(stopAt := Some(at), updatedAt := at)
    case MarkPrepared(_, now) =>
      r.(preparedAt := if r.preparedAt.Some? then r.preparedAt else Some(Max(now, r.createdAt)), updatedAt := at)
    case ObserveProcess(_, running, _) =>
      r.(running := running, observedAt := Some(Max(if r.observedAt.Some? then r.observedAt.value else 0, at)),
          updatedAt := at)
    case RecordError(_, _) => r.(updatedAt := at)
    case Complete(_, terminal, _) =>
      r.(running := false,
         observedAt := Some(Max(if r.observedAt.Some? then r.observedAt.value else 0, at)),
         terminatedAt := Some(Max(at, if r.stopAt.Some? then r.stopAt.value else 0)),
         terminal := Some(terminal),
         updatedAt := at)
  }

  function ComputeUpdate(r: Compute, st: Statement): Compute
    requires OnCompute(st)
  {
    var at := Stamp(st.now, r.createdAt, r.updatedAt);
    match st
    case RecordMachine(_, machine, _) => r.(machine := Some(machine), updatedAt := at)
    case Authenticate(_, _) =>
      r.(connectedAt := Some(Max(if r.connectedAt.Some? then r.connectedAt.value else 0, at)), updatedAt := at)
    case NoteCompute(_, _) => r.(updatedAt := at)
    case RequestShutdown(_, now) =>
      r.(shutdownAt := if r.shutdownAt.Some? then r.shutdownAt else Some(Max(now, r.createdAt)), updatedAt := at)
    case TerminateCompute(_, terminal, _) => r.(terminatedAt := Some(at), terminal := Some(terminal), updatedAt := at)
  }

  function CommittedAt(db: Db, i: nat, now: nat): nat
    requires i < |db.instances|
  {
    Max(now, Max(db.instances[i].updatedAt, db.server.updatedAt))
  }

  function Publish(db: Db, i: nat, token: nat, id: SnapshotId, now: nat): Db
    requires i < |db.instances|
  {
    var at := CommittedAt(db, i, now);
    var row := db.instances[i];
    db.(snapshots := db.snapshots + [Snapshot(id, i, token, at)],
        instances := db.instances[i := row.(result := Some(id), updatedAt := Stamp(at, row.createdAt, row.updatedAt))],
        server := db.server.(current := Some(id), updatedAt := Stamp(at, db.server.createdAt, db.server.updatedAt)))
  }

  /** The whole effect of one statement (or of one transaction). */
  function Exec(db: Db, st: Statement): Db {
    if IsEdit(st) then
      if EditApplies(db, st) then db.(server := Edited(db, st)) else db
    else if OnInstance(st) then UpdateInstance(db, st.i, st)
    else if OnCompute(st) then UpdateCompute(db, st.c, st)
    else
      match st
      case CreateInstance(now) =>
        if CreateApplies(db) then
          db.(instances := db.instances + [NewInstance(db, now)],
              server := db.server.(nextToken := db.server.nextToken + 1))
        else db
      case Commit(i, token, id, now) =>
        if Outcome(db, i, token, id) == Published then Publish(db, i, token, id, now) else db
      case CreateCompute(i, provider, now) =>
        if i < |db.instances| && db.instances[i].Active() && !HasActiveCompute(db.computes, i) then
          db.(computes := db.computes + [Compute(i, provider, None, None, None, None, None, now, now)])
        else db
  }

  function UpdateInstance(db: Db, i: nat, st: Statement): Db
    requires OnInstance(st)
  {
    if i < |db.instances| && db.instances[i].Active()
    then db.(instances := db.instances[i := InstanceUpdate(db.instances[i], st)])
    else db
  }

  function UpdateCompute(db: Db, c: nat, st: Statement): Db
    requires OnCompute(st)
  {
    if c < |db.computes| && db.computes[c].Active()
    then db.(computes := db.computes[c := ComputeUpdate(db.computes[c], st)])
    else db
  }

  // --------------------------------------------- the schema's own promises

  predicate Within(t: Option<nat>, lo: nat, hi: nat) {
    t.Some? ==> lo <= t.value <= hi
  }

  // CHECK clauses of `servers` (migrations 0001 and 0003).
  predicate ServerChecks(s: Server) {
    && s.generation > 0
    && s.nextToken > 0
    && s.createdAt <= s.updatedAt
    && (s.archivedAt.Some? ==> Within(s.archivedAt, s.createdAt, s.updatedAt) && s.desired == Stopped)
  }

  // CHECK clauses of `server_instances`.
  predicate InstanceChecks(r: Instance) {
    && r.generation > 0
    && r.token > 0
    && r.createdAt <= r.updatedAt
    && r.terminatedAt.Some? == r.terminal.Some?
    && (r.running ==> r.observedAt.Some? && r.terminatedAt.None?)
    && Within(r.preparedAt, r.createdAt, r.updatedAt)
    && Within(r.observedAt, r.createdAt, r.updatedAt)
    && Within(r.stopAt, r.createdAt, r.updatedAt)
    && Within(r.terminatedAt, r.createdAt, r.updatedAt)
    && (r.terminatedAt.Some? ==>
          && Within(r.preparedAt, 0, r.terminatedAt.value)
          && Within(r.observedAt, 0, r.terminatedAt.value)
          && Within(r.stopAt, 0, r.terminatedAt.value))
  }

  // CHECK clauses of `compute_instances` on the lifecycle columns.
  predicate ComputeChecks(r: Compute) {
    && r.createdAt <= r.updatedAt
    && r.terminatedAt.Some? == r.terminal.Some?
    && Within(r.connectedAt, r.createdAt, r.updatedAt)
    && Within(r.shutdownAt, r.createdAt, r.updatedAt)
    && Within(r.terminatedAt, r.createdAt, r.updatedAt)
    && (r.terminatedAt.Some? ==>
          Within(r.connectedAt, 0, r.terminatedAt.value) && Within(r.shutdownAt, 0, r.terminatedAt.value))
  }

  datatype RowError = ZeroGeneration | ZeroToken | BadSpec | IncompleteTerminal | MissingObservation | BadOrder

  // `ServerInstance::rehydrate`, run on every row that is read.
  function Rehydrate(r: Instance): Result<Instance, RowError> {
    if r.generation == 0 then Err(ZeroGeneration)
    else if r.token == 0 then Err(ZeroToken)
    else if !ValidSpec(r.spec) then Err(BadSpec)
    else if r.terminatedAt.Some? != r.terminal.Some? then Err(IncompleteTerminal)
    else if r.running && r.observedAt.None? then Err(MissingObservation)
    else if exists t ::
        t in [r.preparedAt, r.observedAt, r.stopAt, r.terminatedAt]
        && !Within(t, r.createdAt, r.updatedAt) then Err(BadOrder)
    else if r.updatedAt < r.createdAt then Err(BadOrder)
    else if r.terminatedAt.Some? && exists t ::
        t in [r.preparedAt, r.observedAt, r.stopAt] && !Within(t, 0, r.terminatedAt.value) then Err(BadOrder)
    else Ok(r)
  }

  // `ComputeInstance::rehydrate` on the lifecycle columns.
  function RehydrateCompute(r: Compute): Result<Compute, RowError> {
    if r.terminatedAt.Some? != r.terminal.Some? then Err(IncompleteTerminal)
    else if exists t ::
        t in [r.connectedAt, r.shutdownAt, r.terminatedAt] && !Within(t, r.createdAt, r.updatedAt) then Err(BadOrder)
    else if r.updatedAt < r.createdAt then Err(BadOrder)
    else if r.terminatedAt.Some? && exists t ::
        t in [r.connectedAt, r.shutdownAt] && !Within(t, 0, r.terminatedAt.value) then Err(BadOrder)
    else Ok(r)
  }

  // The result of the nearest publisher, looking back from the end.
  function LastResult(instances: seq<Instance>): Option<SnapshotId> {
    if |instances| == 0 then None
    else
      var last := instances[|instances| - 1];
      if last.result.Some? then last.result else LastResult(instances[..|instances| - 1])
  }

  // Fencing: tokens, the single active instance, disjoint lifetimes.
  ghost predicate Fenced(nextToken: nat, instances: seq<Instance>) {
    && (forall k :: 0 <= k < |instances| ==> instances[k].token < nextToken)
    && (forall j, k :: 0 <= j < k < |instances| ==>
          && instances[j].token < instances[k].token
          && !instances[j].Active()
          && instances[j].updatedAt <= instances[k].createdAt)
  }

  // The publication chain: who publishes, what the next instance starts from.
  ghost predicate Chained(current: Option<SnapshotId>, instances: seq<Instance>) {
    && (forall k :: 0 <= k < |instances| ==> instances[k].source == LastResult(instances[..k]))
    && current == LastResult(instances)
  }

  // One storage location for the whole life of the server.
  ghost predicate OneStorage(spec: Spec, instances: seq<Instance>) {
    && ValidSpec(spec)
    && (forall k :: 0 <= k < |instances| ==> ValidSpec(instances[k].spec) && instances[k].spec.data == spec.data)
  }

  // The snapshot table lists exactly the publications, in token order.
  ghost predicate Listed(snapshots: seq<Snapshot>, instances: seq<Instance>) {
    && (forall m :: 0 <= m < |snapshots| ==> ListedOnce(snapshots[m], instances))
    && (forall m, n :: 0 <= m < n < |snapshots| ==>
          snapshots[m].instance < snapshots[n].instance && snapshots[m].id != snapshots[n].id)
    && (forall k :: 0 <= k < |instances| && instances[k].result.Some? ==>
          exists m :: 0 <= m < |snapshots| && snapshots[m].instance == k)
  }

  ghost predicate ListedOnce(s: Snapshot, instances: seq<Instance>) {
    && s.instance < |instances|
    && instances[s.instance].result == Some(s.id)
    && instances[s.instance].token == s.token
    && instances[s.instance].createdAt <= s.createdAt <= instances[s.instance].updatedAt
  }

  ghost predicate ComputesOk(instances: nat, computes: seq<Compute>) {
    && (forall c :: 0 <= c < |computes| ==> computes[c].instance < instances && ComputeChecks(computes[c]))
    && (forall c, d :: 0 <= c < d < |computes| && computes[c].instance == computes[d].instance ==>
          !computes[c].Active() || !computes[d].Active())
  }

  // The update that ends an instance is its last.
  ghost predicate EndsLast(r: Instance) {
    r.terminatedAt.Some? ==> r.terminatedAt.value == r.updatedAt
  }

  ghost predicate Checked(instances: seq<Instance>) {
    forall k :: 0 <= k < |instances| ==> InstanceChecks(instances[k]) && EndsLast(instances[k])
  }

  ghost predicate DbInv(db: Db) {
    && ServerChecks(db.server)
    && (db.server.archivedAt.Some? ==> !HasActive(db.instances))
    && Checked(db.instances)
    && Fenced(db.server.nextToken, db.instances)
    && Chained(db.server.current, db.instances)
    && OneStorage(db.server.spec, db.instances)
    && Listed(db.snapshots, db.instances)
    && ComputesOk(|db.instances|, db.computes)
  }

  // A row read at some earlier time, as far as the statement that carries it can tell.
  predicate ReadEarlier(read: Server, now: Server) {
    && read.createdAt == now.createdAt
    && read.createdAt <= read.updatedAt
    && read.spec.data == now.spec.data
    && read.generation <= now.generation
    && (read.generation == now.generation ==>
          read.desired == now.desired && read.spec == now.spec && read.archivedAt == now.archivedAt)
  }

  predicate Admissible(db: Db, st: Statement) {
    IsEdit(st) ==> ReadEarlier(st.read, db.server)
  }

  // ------------------------------------------------- each statement keeps it

  lemma {:induction false} LatestUpdateBounds(instances: seq<Instance>, k: nat)
    requires k < |instances|
    ensures instances[k].updatedAt <= LatestUpdate(instances)
  {
    if k < |instances| - 1 {
      LatestUpdateBounds(instances[..|instances| - 1], k);
    }
  }

  lemma PrefixOfUpdate(s: seq<Instance>, i: nat, r: Instance, k: nat)
    requires i < |s| && k <= |s|
    ensures k <= i ==> s[i := r][..k] == s[..k]
    ensures k > i ==> s[i := r][..k] == s[..k][i := r]
  {}

  // A rewrite that leaves every result alone leaves the chain alone.
  lemma {:induction false} LastResultSame(s: seq<Instance>, t: seq<Instance>)
    requires |s| == |t|
    requires forall k :: 0 <= k < |s| ==> s[k].result == t[k].result
    ensures LastResult(s) == LastResult(t)
  {
    if |s| > 0 {
      LastResultSame(s[..|s| - 1], t[..|t| - 1]);
    }
  }

  lemma ChainedUpdate(current: Option<SnapshotId>, s: seq<Instance>, i: nat, r: Instance)
    requires Chained(current, s) && i < |s|
    requires r.result == s[i].result && r.source == s[i].source
    ensures Chained(current, s[i := r])
  {
    var t := s[i := r];
    LastResultSame(s, t);
    forall k | 0 <= k < |t| ensures t[k].source == LastResult(t[..k]) {
      LastResultSame(s[..k], t[..k]);
    }
  }

  // Only the newest instance can be active.
  lemma ActiveIsLast(next: nat, s: seq<Instance>, i: nat)
    requires Fenced(next, s) && i < |s| && s[i].Active()
    ensures i == |s| - 1
  {
    var last := |s| - 1;
    assert s[last] == s[last];
  }

  lemma RowUpdate(next: nat, spec: Spec, s: seq<Instance>, i: nat, r: Instance)
    requires Checked(s) && Fenced(next, s) && OneStorage(spec, s)
    requires i < |s| && s[i].Active() && InstanceChecks(r) && EndsLast(r)
    requires r.spec == s[i].spec && r.token == s[i].token && r.createdAt == s[i].createdAt
    ensures i == |s| - 1
    ensures Checked(s[i := r]) && Fenced(next, s[i := r]) && OneStorage(spec, s[i := r])
  {
    ActiveIsLast(next, s, i);
  }

  lemma ListedUpdate(snapshots: seq<Snapshot>, s: seq<Instance>, i: nat, r: Instance)
    requires Listed(snapshots, s) && i < |s|
    requires r.result == s[i].result && r.token == s[i].token
    requires r.createdAt == s[i].createdAt && r.updatedAt >= s[i].updatedAt
    ensures Listed(snapshots, s[i := r])
  {
    var t := s[i := r];
    forall m | 0 <= m < |snapshots| ensures ListedOnce(snapshots[m], t) {
      assert ListedOnce(snapshots[m], s);
    }
    forall k | 0 <= k < |t| && t[k].result.Some?
      ensures exists m :: 0 <= m < |snapshots| && snapshots[m].instance == k
    {
      assert s[k].result.Some?;
    }
  }

  lemma UpdateInstanceChecks(r: Instance, st: Statement)
    requires InstanceChecks(r) && r.Active()
    requires OnInstance(st)
    ensures InstanceChecks(InstanceUpdate(r, st)) && EndsLast(InstanceUpdate(r, st))
    ensures InstanceUpdate(r, st).updatedAt >= r.updatedAt
  {}

  lemma UpdateInstanceKeeps(db: Db, i: nat, st: Statement)
    requires DbInv(db)
    requires OnInstance(st)
    ensures DbInv(UpdateInstance(db, i, st))
  {
    if i < |db.instances| && db.instances[i].Active() {
      var r := InstanceUpdate(db.instances[i], st);
      UpdateInstanceChecks(db.instances[i], st);
      ChainedUpdate(db.server.current, db.instances, i, r);
      RowUpdate(db.server.nextToken, db.server.spec, db.instances, i, r);
      ListedUpdate(db.snapshots, db.instances, i, r);
      assert HasActive(db.instances);
    }
  }

  lemma UpdateComputeKeeps(db: Db, c: nat, st: Statement)
    requires DbInv(db)
    requires OnCompute(st)
    ensures DbInv(UpdateCompute(db, c, st))
  {
    if c < |db.computes| && db.computes[c].Active() {
      ComputesUpdate(|db.instances|, db.computes, c, st);
    }
  }

  lemma ComputesUpdate(n: nat, s: seq<Compute>, c: nat, st: Statement)
    requires ComputesOk(n, s) && c < |s| && s[c].Active() && OnCompute(st)
    ensures ComputesOk(n, s[c := ComputeUpdate(s[c], st)])
  {
    assert ComputeChecks(s[c]);
    assert ComputeChecks(ComputeUpdate(s[c], st));
  }

  lemma FencedAppend(db: Db, now: nat)
    requires Fenced(db.server.nextToken, db.instances) && CreateApplies(db)
    ensures Fenced(db.server.nextToken + 1, db.instances + [NewInstance(db, now)])
  {
    var row := NewInstance(db, now);
    forall k | 0 <= k < |db.instances| ensures db.instances[k].updatedAt <= row.createdAt && !db.instances[k].Active() {
      LatestUpdateBounds(db.instances, k);
    }
  }

  lemma ChainedAppend(current: Option<SnapshotId>, s: seq<Instance>, r: Instance)
    requires Chained(current, s) && r.source == current && r.result.None?
    ensures Chained(current, s + [r])
  {
    var t := s + [r];
    assert t[..|s|] == s;
    forall k | 0 <= k < |t| ensures t[k].source == LastResult(t[..k]) {
      assert t[..k] == s[..k];
    }
  }

  lemma ListedAppend(snapshots: seq<Snapshot>, s: seq<Instance>, r: Instance)
    requires Listed(snapshots, s) && r.result.None?
    ensures Listed(snapshots, s + [r])
  {
    var t := s + [r];
    forall m | 0 <= m < |snapshots| ensures ListedOnce(snapshots[m], t) {
      assert ListedOnce(snapshots[m], s);
    }
    forall k | 0 <= k < |t| && t[k].result.Some?
      ensures exists m :: 0 <= m < |snapshots| && snapshots[m].instance == k
    {
      assert s[k].result.Some?;
    }
  }

  lemma RowAppend(spec: Spec, s: seq<Instance>, r: Instance)
    requires Checked(s) && OneStorage(spec, s) && InstanceChecks(r) && EndsLast(r) && r.spec == spec
    ensures Checked(s + [r]) && OneStorage(spec, s + [r])
  {}

  lemma CreateInstanceKeeps(db: Db, now: nat)
    requires DbInv(db)
    ensures DbInv(Exec(db, CreateInstance(now)))
  {
    if CreateApplies(db) {
      var row := NewInstance(db, now);
      FencedAppend(db, now);
      NewRowAppend(db.server, db.snapshots, db.instances, row);
    }
  }

  lemma NewRowAppend(server: Server, snapshots: seq<Snapshot>, s: seq<Instance>, r: Instance)
    requires Checked(s) && OneStorage(server.spec, s) && Chained(server.current, s) && Listed(snapshots, s)
    requires InstanceChecks(r) && EndsLast(r) && r.spec == server.spec && r.source == server.current && r.result.None?
    ensures Checked(s + [r]) && OneStorage(server.spec, s + [r])
    ensures Chained(server.current, s + [r]) && Listed(snapshots, s + [r])
  {
    ChainedAppend(server.current, s, r);
    ListedAppend(snapshots, s, r);
    RowAppend(server.spec, s, r);
  }

  lemma ChainedPublish(current: Option<SnapshotId>, s: seq<Instance>, i: nat, r: Instance)
    requires Chained(current, s) && i == |s| - 1
    requires r.source == s[i].source && r.result.Some?
    ensures Chained(r.result, s[i := r])
  {
    var t := s[i := r];
    forall k | 0 <= k < |t| ensures t[k].source == LastResult(t[..k]) {
      PrefixOfUpdate(s, i, r, k);
    }
  }

  lemma ListedPublish(snapshots: seq<Snapshot>, s: seq<Instance>, i: nat, r: Instance, row: Snapshot)
    requires Listed(snapshots, s) && i == |s| - 1
    requires s[i].result.None?
    requires row.instance == i && ListedOnce(row, s[i := r])
    requires forall m :: 0 <= m < |snapshots| ==> snapshots[m].id != row.id
    ensures Listed(snapshots + [row], s[i := r])
  {
    var t, rows := s[i := r], snapshots + [row];
    forall m | 0 <= m < |snapshots| ensures snapshots[m].instance < i && ListedOnce(snapshots[m], t) {
      assert ListedOnce(snapshots[m], s);
    }
    forall k | 0 <= k < |t| && t[k].result.Some?
      ensures exists m :: 0 <= m < |rows| && rows[m].instance == k
    {
      if k == i {
        assert rows[|snapshots|].instance == k;
      } else {
        assert s[k].result.Some?;
        var m :| 0 <= m < |snapshots| && snapshots[m].instance == k;
        assert rows[m].instance == k;
      }
    }
  }

  lemma CommitKeeps(db: Db, i: nat, token: nat, id: SnapshotId, now: nat)
    requires DbInv(db)
    ensures DbInv(Exec(db, Commit(i, token, id, now)))
  {
    if Outcome(db, i, token, id) == Published {
      PublishRows(db, i, token, id, now);
      PublishServer(db, i, token, id, now);
      ChainedPublish(db.server.current, db.instances, i, Publish(db, i, token, id, now).instances[i]);
    }
  }

  // The instance row moves, and the snapshot table lists the move.
  lemma PublishRows(db: Db, i: nat, token: nat, id: SnapshotId, now: nat)
    requires Checked(db.instances) && Fenced(db.server.nextToken, db.instances)
        && OneStorage(db.server.spec, db.instances)
    requires Listed(db.snapshots, db.instances) && Outcome(db, i, token, id) == Published
    ensures var db' := Publish(db, i, token, id, now);
            && Checked(db'.instances) && Fenced(db.server.nextToken, db'.instances) && i == |db.instances| - 1
            && OneStorage(db.server.spec, db'.instances) && Listed(db'.snapshots, db'.instances)
  {
    var r := Publish(db, i, token, id, now).instances[i];
    assert InstanceChecks(db.instances[i]);
    RowUpdate(db.server.nextToken, db.server.spec, db.instances, i, r);
    ListedPublish(db.snapshots, db.instances, i, r, Snapshot(id, i, token, CommittedAt(db, i, now)));
  }

  lemma PublishServer(db: Db, i: nat, token: nat, id: SnapshotId, now: nat)
    requires ServerChecks(db.server) && (db.server.archivedAt.Some? ==> !HasActive(db.instances))
    requires Outcome(db, i, token, id) == Published
    ensures ServerChecks(Publish(db, i, token, id, now).server) && db.server.archivedAt.None?
  {
    assert HasActive(db.instances);
  }

  // The unpublished row of the highest token is the one that may publish, and under a new id.
  ghost predicate MayPublish(db: Db, i: nat, token: nat, id: SnapshotId) {
    && ValidSnapshotId(id) && i == |db.instances| - 1 && db.instances[i].Active()
    && db.instances[i].token == token && db.instances[i].result.None?
    && forall m :: 0 <= m < |db.snapshots| ==> db.snapshots[m].id != id
  }

  /** Every refusal of a commit has its own reason, read off the rows; a stale one is reported as
      such even if the instance has published. */
  lemma RefusedIff(db: Db, i: nat, token: nat, id: SnapshotId)
    ensures var r, known := Outcome(db, i, token, id), ValidSnapshotId(id) && i < |db.instances|;
            var mine := known && db.instances[i].token == token && db.instances[i].Active();
            && (r == InvalidId <==> !ValidSnapshotId(id))
            && (r == NoSuchInstance <==> ValidSnapshotId(id) && i >= |db.instances|)
            && (r == Stale <==> known && !mine)
            && (r == AlreadyPublished <==> mine && db.instances[i].result == Some(id))
            && (r == PublishedAnother <==> mine && db.instances[i].result.Some? && db.instances[i].result != Some(id))
            && (r == DuplicateRow <==>
                  mine && db.instances[i].result.None?
                  && exists m ::
                    0 <= m < |db.snapshots| && (db.snapshots[m].id == id || db.snapshots[m].token == token))
  {}

  /** A commit publishes if and only if it comes from the newest instance, still active and
      unpublished, with a new id. */
  lemma CommitIffNewest(db: Db, i: nat, token: nat, id: SnapshotId)
    requires Fenced(db.server.nextToken, db.instances) && Listed(db.snapshots, db.instances)
    ensures Outcome(db, i, token, id) == Published <==> MayPublish(db, i, token, id)
  {
    if i < |db.instances| && db.instances[i].Active() {
      ActiveIsLast(db.server.nextToken, db.instances, i);
      if db.instances[i].result.None? {
        forall m | 0 <= m < |db.snapshots| ensures db.snapshots[m].token != db.instances[i].token {
          assert ListedOnce(db.snapshots[m], db.instances);
        }
      }
    }
  }

  lemma EditChecks(db: Db, st: Statement)
    requires IsEdit(st) && EditApplies(db, st)
    requires ServerChecks(db.server) && ValidSpec(db.server.spec) && ReadEarlier(st.read, db.server)
    ensures ServerChecks(Edited(db, st))
    ensures ValidSpec(Edited(db, st).spec) && Edited(db, st).spec.data == db.server.spec.data
    ensures Edited(db, st).current == db.server.current && Edited(db, st).nextToken == db.server.nextToken
    ensures Edited(db, st).archivedAt.Some? ==> !HasActive(db.instances)
    ensures Edited(db, st).generation == db.server.generation + 1
  {}

  lemma EditKeeps(db: Db, st: Statement)
    requires DbInv(db) && IsEdit(st) && Admissible(db, st)
    ensures DbInv(Exec(db, st))
  {
    if EditApplies(db, st) {
      EditChecks(db, st);
      assert OneStorage(Edited(db, st).spec, db.instances);
    }
  }

  lemma ComputesAppend(db: Db, i: nat, provider: Provider, now: nat)
    requires ComputesOk(|db.instances|, db.computes)
    ensures ComputesOk(|db.instances|, Exec(db, CreateCompute(i, provider, now)).computes)
  {}

  lemma CreateComputeKeeps(db: Db, i: nat, provider: Provider, now: nat)
    requires DbInv(db)
    ensures DbInv(Exec(db, CreateCompute(i, provider, now)))
  {
    ComputesAppend(db, i, provider, now);
  }

  /** Every statement keeps every promise of the schema, whatever its arguments
      and whatever the clock says. */
  lemma ExecKeepsInv(db: Db, st: Statement)
    requires DbInv(db) && Admissible(db, st)
    ensures DbInv(Exec(db, st))
  {
    if IsEdit(st) {
      EditKeeps(db, st);
    } else if OnInstance(st) {
      UpdateInstanceKeeps(db, st.i, st);
    } else if OnCompute(st) {
      UpdateComputeKeeps(db, st.c, st);
    } else {
      InsertKeeps(db, st);
    }
  }

  lemma InsertKeeps(db: Db, st: Statement)
    requires DbInv(db) && !IsEdit(st) && !OnInstance(st) && !OnCompute(st)
    ensures DbInv(Exec(db, st))
  {
    match st
    case CreateInstance(now) => CreateInstanceKeeps(db, now);
    case Commit(i, token, id, now) => CommitKeeps(db, i, token, id, now);
    case CreateCompute(i, provider, now) => CreateComputeKeeps(db, i, provider, now);
  }
}
