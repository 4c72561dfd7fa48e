/** The lifecycle protocol of one server as a transition system.

    The state spans the database rows, the machines behind the compute rows,
    the agent sessions and the restic repository. Every event is one atomic
    step of the reconciler, of a client, of an agent, of the Minecraft process
    or of the provider; calls whose reply is lost, crashes and disconnects are
    simply the runs in which the next step of some party never comes.

    `log` and `offered` are history: the contents of /data after every process
    start and every write, and the snapshot ids agents recorded on disk. */
module Lifecycle {
  import opened Domain
  import opened Database

  // Contents of a /data directory. `Torn` is what an incomplete directory holds.
  datatype Tree = EmptyTree | Tree(id: nat) | Torn

  datatype Directory = Missing | Partial | Whole(tree: Tree)

  datatype Container = NoContainer | Exited | Up

  // agent-state.json; it is first written once the data is prepared.
  datatype AgentState = AgentState(instance: nat, token: nat, last: Option<SnapshotId>)

  datatype Kind = Restore | Start | Stop | Backup | Cleanup

  datatype Command = Command(kind: Kind, instance: nat, token: nat, repository: string, source: Option<SnapshotId>)

  datatype Reply = Done(kind: Kind, changed: bool) | Taken(id: SnapshotId) | Refused

  /** The machine behind a compute row: an Akamai VM or a local state directory. */
  datatype Node = Node(
    id: nat,
    agentUp: bool,
    data: Directory,
    state: Option<AgentState>,
    container: Container,
    inflight: Option<Command>,
    reply: Option<Reply>)

  // `Live` is the agent's current connection; `Dead` is registered but leads nowhere.
  datatype Session = Live | Dead

  datatype Version = Version(instance: nat, tree: Tree)

  datatype World = World(
    db: Db,
    nodes: map<nat, Node>,
    sessions: map<nat, Session>,
    restic: map<(string, SnapshotId), Tree>,
    log: seq<Version>,
    offered: set<(nat, SnapshotId)>)

  datatype Move =
    | Scratch(data: Directory)
    | Drop
    | Make
    | Save(id: SnapshotId)
    | Finish(snapshot: SnapshotId, changed: bool)
    // The effect of `Finish`, but the call that brought it about reports an error.
    | Falter(snapshot: SnapshotId, changed: bool)
    | Refuse

  datatype Event =
    | Sql(st: Statement)
    | Provision(c: nat, id: nat)
    | AgentUp(c: nat)
    | Send(c: nat, kind: Kind)
    | Agent(c: nat, move: Move)
    | Abort(c: nat)
    | AgentDown(c: nat)
    | Register(c: nat)
    | Disconnect(c: nat, halfOpen: bool)
    | Write(c: nat, tree: Tree)
    | Exit(c: nat)
    | Lose(c: nat)
    | Destroy(c: nat)

  // ------------------------------------------------------------- definitions

  function Repository(db: Db): string {
    db.server.spec.data.repository
  }

  function Row(db: Db, c: nat): Instance
    requires c < |db.computes| && db.computes[c].instance < |db.instances|
  {
    db.instances[db.computes[c].instance]
  }

  function CommandFor(kind: Kind, i: nat, row: Instance): Command {
    Command(kind, i, row.token, row.spec.data.repository, row.source)
  }

  function TreeOf(d: Directory): Tree {
    if d.Whole? then d.tree else Torn
  }

  function TreeAt(restic: map<(string, SnapshotId), Tree>, repository: string, id: Option<SnapshotId>): Tree {
    match id
    case None => EmptyTree
    case Some(x) => if (repository, x) in restic then restic[(repository, x)] else Torn
  }

  predicate Started(log: seq<Version>, i: nat) {
    exists k :: 0 <= k < |log| && log[k].instance == i
  }

  // The last contents any instance below `i` left behind.
  function Prior(log: seq<Version>, i: nat): Tree {
    if |log| == 0 then EmptyTree
    else
      var last := log[|log| - 1];
      if last.instance < i then last.tree else Prior(log[..|log| - 1], i)
  }

  predicate Offered(offered: set<(nat, SnapshotId)>, i: nat) {
    exists o :: o in offered && o.0 == i
  }

  // `validate_identity`
  predicate Matches(state: AgentState, cmd: Command) {
    state.instance == cmd.instance && state.token == cmd.token
  }

  predicate Tied(db: Db, c: nat) {
    c < |db.computes| && db.computes[c].instance < |db.instances|
  }

  // A VM under the row's label that is not the one on record, so that the record does not lead to it.
  predicate StrayNode(w: World, c: nat) {
    && c in w.nodes && c < |w.db.computes| && w.db.computes[c].provider == AkamaiVm
    && w.db.computes[c].machine.Some? && w.db.computes[c].machine.value != w.nodes[c].id
  }

  // There is a machine that the record leads to.
  predicate Leaves(w: World, c: nat) {
    c in w.nodes && !StrayNode(w, c)
  }

  // ---------------------------------------------------------------- enabling

  // What the reconciler has established when it sends a statement.
  predicate MayExecute(w: World, st: Statement) {
    match st
    case MarkPrepared(i, _) =>
      forall c :: 0 <= c < |w.db.computes| && w.db.computes[c].instance == i ==>
        w.db.computes[c].shutdownAt.None? && (c in w.nodes ==> w.nodes[c].state.Some? && w.nodes[c].inflight.None?)
    case Complete(i, _, _) =>
      && i < |w.db.instances| && w.db.instances[i].stopAt.Some? && w.db.instances[i].SafeToDiscard()
      && !HasActiveCompute(w.db.computes, i)
    case Commit(i, _, id, _) =>
      && (i, id) in w.offered
      && (forall c ::
          0 <= c < |w.db.computes| && w.db.computes[c].instance == i && c in w.nodes ==> w.nodes[c].inflight.None?)
    case CreateCompute(i, provider, _) =>
      && i < |w.db.instances| && w.db.instances[i].stopAt.None?
      && provider == ProviderOf(w.db.instances[i].spec.compute)
    case RequestShutdown(c, _) => Tied(w.db, c) && Row(w.db, c).stopAt.Some? && Row(w.db, c).SafeToDiscard()
    case TerminateCompute(c, _, _) => c < |w.db.computes| && w.db.computes[c].shutdownAt.Some? && !Leaves(w, c)
    case _ => true
  }

  // What the row has to say before a command goes out.
  predicate RowAllows(row: Instance, kind: Kind) {
    match kind
    case Restore => row.stopAt.None? && row.preparedAt.None?
    case Start => row.stopAt.None? && row.preparedAt.Some?
    case Stop => row.stopAt.Some?
    case Backup => row.stopAt.Some? && row.preparedAt.Some? && row.result.None?
    case Cleanup => row.stopAt.Some? && row.SafeToDiscard()
  }

  predicate MaySend(row: Instance, node: Node, kind: Kind) {
    RowAllows(row, kind) && (kind == Cleanup ==> row.result.Some? || node.state.None?)
  }

  // One step of the command the agent is executing.
  predicate MoveOk(w: World, node: Node, cmd: Command, move: Move) {
    if move.Falter? then MoveFits(w, node, cmd, Finish(move.snapshot, move.changed)) else MoveFits(w, node, cmd, move)
  }

  predicate MoveFits(w: World, node: Node, cmd: Command, move: Move) {
    var known := node.state.Some? && Matches(node.state.value, cmd);
    match cmd.kind
    case Restore =>
      (match move
       case Scratch(_) => node.state.None?
       case Finish(_, _) => known || (node.state.None? && TreeAt(w.restic, cmd.repository, cmd.source) != Torn)
       case Refuse => true
       case _ => false)
    case Start =>
      (match move
       case Drop => known && node.container != Up
       case Make => known && node.container == NoContainer
       case Finish(_, _) => known && node.container != NoContainer
       case Refuse => true
       case _ => false)
    case Stop =>
      (match move
       case Finish(_, _) => known
       case Refuse => true
       case _ => false)
    case Backup =>
      (match move
       case Save(id) => known && node.container != Up && FreshId(w, id)
       case Finish(id, _) => known && node.container != Up && FreshId(w, id)
       case Refuse => true
       case _ => false)
    case Cleanup =>
      (match move
       case Drop => known || node.state.None?
       case Scratch(_) => known || node.state.None?
       case Finish(_, changed) => (known || node.state.None?) && (HasStorage(node) ==> changed)
       case Refuse => true
       case _ => false)
  }

  predicate HasStorage(node: Node) {
    node.container != NoContainer || node.data != Missing || node.state.Some?
  }

  // restic never hands out an id twice.
  predicate FreshId(w: World, id: SnapshotId) {
    ValidSnapshotId(id) && forall r :: r in w.restic ==> r.1 != id
  }

  predicate Enabled(w: World, e: Event) {
    match e
    case Sql(st) => Admissible(w.db, st) && MayExecute(w, st)
    case Provision(c, _) =>
      && Tied(w.db, c) && w.db.computes[c].Active() && w.db.computes[c].shutdownAt.None? && c !in w.nodes
      && (w.db.computes[c].provider == AkamaiVm ==> Row(w.db, c).preparedAt.None?)
    case AgentUp(c) => c in w.nodes
    case Send(c, kind) =>
      && Tied(w.db, c) && w.db.computes[c].Active() && Row(w.db, c).Active()
      && c in w.nodes && c in w.sessions && w.sessions[c] == Live && w.nodes[c].inflight.None?
      && MaySend(Row(w.db, c), w.nodes[c], kind)
    case Agent(c, move) =>
        c in w.nodes && w.nodes[c].inflight.Some? && MoveOk(w, w.nodes[c], w.nodes[c].inflight.value, move)
    case Abort(c) => c in w.nodes
    case AgentDown(c) => c in w.nodes
    case Register(c) =>
      c in w.nodes && w.nodes[c].agentUp && w.nodes[c].inflight.None? && c < |w.db.computes|
          && w.db.computes[c].Active()
    case Disconnect(_, _) => true
    case Write(c, tree) => c in w.nodes && w.nodes[c].container == Up && tree != Torn
    case Exit(c) => c in w.nodes && w.nodes[c].container == Up
    case Lose(c) => c in w.nodes
    case Destroy(c) => c in w.nodes && c < |w.db.computes| && w.db.computes[c].shutdownAt.Some?
  }

  // Events the reconciler itself performs; everything else happens around it.
  predicate ByWorker(e: Event) {
    || (e.Sql? && !IsEdit(e.st) && !ByAgent(e.st))
    || e.Provision? || e.Send? || e.Destroy?
  }

  // ------------------------------------------------------------------ effect

  const BARE := Node(0, true, Missing, None, NoContainer, None, None)

  function At(nodes: map<nat, Node>, c: nat): Node {
    if c in nodes then nodes[c] else BARE
  }

  function Sever(sessions: map<nat, Session>, c: nat): map<nat, Session> {
    if c in sessions then sessions[c := Dead] else sessions
  }

  function Settle(node: Node, reply: Reply): Node {
    node.(inflight := None, reply := Some(reply))
  }

  function Moved(w: World, c: nat, move: Move): World {
    var node := At(w.nodes, c);
    if node.inflight.None? then w
    else
      var cmd := node.inflight.value;
      match move
      case Refuse => w.(nodes := w.nodes[c := Settle(node, Refused)])
      case Scratch(d) => w.(nodes := w.nodes[c := node.(data := d)])
      case Drop => w.(nodes := w.nodes[c := node.(container := NoContainer)])
      case Make => w.(nodes := w.nodes[c := node.(container := Exited)])
      case Save(id) => w.(restic := w.restic[(cmd.repository, id) := TreeOf(node.data)])
      case Finish(id, changed) => Finished(w, c, node, cmd, id, changed)
      case Falter(id, changed) => Faltered(Finished(w, c, node, cmd, id, changed), c)
  }

  function Faltered(w: World, c: nat): World {
    w.(nodes := w.nodes[c := At(w.nodes, c).(reply := Some(Refused))])
  }

  function Finished(w: World, c: nat, node: Node, cmd: Command, id: SnapshotId, changed: bool): World {
    match cmd.kind
    case Restore =>
      if node.state.Some? then w.(nodes := w.nodes[c := Settle(node, Done(Restore, false))])
      else
        w.(nodes := w.nodes[c := Settle(
             node.(data := Whole(TreeAt(w.restic, cmd.repository, cmd.source)),
                   state := Some(AgentState(cmd.instance, cmd.token, None))),
             Done(Restore, true))])
    case Start =>
      if node.container == Up then w.(nodes := w.nodes[c := Settle(node, Done(Start, false))])
      else
        w.(nodes := w.nodes[c := Settle(node.(container := Up), Done(Start, true))],
           log := w.log + [Version(cmd.instance, TreeOf(node.data))])
    case Stop =>
      if node.container == Up then w.(nodes := w.nodes[c := Settle(node.(container := Exited), Done(Stop, true))])
      else w.(nodes := w.nodes[c := Settle(node, Done(Stop, false))])
    case Backup =>
      if node.state.None? then w
      else
        w.(restic := w.restic[(cmd.repository, id) := TreeOf(node.data)],
           nodes := w.nodes[c := Settle(node.(state := Some(node.state.value.(last := Some(id)))), Taken(id))],
           offered := w.offered + {(cmd.instance, id)})
    case Cleanup =>
      w.(nodes := w.nodes[c := Settle(
           node.(container := NoContainer, data := Missing, state := None), Done(Cleanup, changed))])
  }

  function Apply(w: World, e: Event): World {
    match e
    case Sql(st) => w.(db := Exec(w.db, st))
    case Provision(c, id) => w.(nodes := w.nodes[c := BARE.(id := id)])
    case AgentUp(c) => w.(nodes := w.nodes[c := At(w.nodes, c).(agentUp := true)])
    case Send(c, kind) =>
      if Tied(w.db, c) then
        w.(nodes := w.nodes[c := At(w.nodes, c).(
             inflight := Some(CommandFor(kind, w.db.computes[c].instance, Row(w.db, c))), reply := None)])
      else w
    case Agent(c, move) => Moved(w, c, move)
    case Abort(c) => w.(nodes := w.nodes[c := At(w.nodes, c).(inflight := None, reply := None)])
    case AgentDown(c) =>
      w.(nodes := w.nodes[c := At(w.nodes, c).(agentUp := false, inflight := None, reply := None)],
          sessions := Sever(w.sessions, c))
    case Register(c) => w.(sessions := w.sessions[c := Live], nodes := w.nodes[c := At(w.nodes, c).(reply := None)])
    case Disconnect(c, halfOpen) => w.(sessions := if halfOpen then w.sessions[c := Dead] else w.sessions - {c})
    case Write(c, tree) =>
      if Tied(w.db, c) then
        w.(nodes := w.nodes[c := At(w.nodes, c).(data := Whole(tree))],
           log := w.log + [Version(w.db.computes[c].instance, tree)])
      else w
    case Exit(c) => w.(nodes := w.nodes[c := At(w.nodes, c).(container := Exited)])
    case Lose(c) => w.(nodes := w.nodes - {c}, sessions := Sever(w.sessions, c))
    case Destroy(c) => w.(nodes := w.nodes - {c}, sessions := Sever(w.sessions, c))
  }

  // --------------------------------------------------------------- invariant

  ghost predicate LogOk(n: nat, log: seq<Version>) {
    && (forall k :: 0 <= k < |log| ==> log[k].instance < n && log[k].tree != Torn)
    && (forall j, k :: 0 <= j < k < |log| ==> log[j].instance <= log[k].instance)
  }

  // What instance `i` started from, what it published, and when it may be over.
  ghost predicate InstanceOk(row: Instance, i: nat, restic: map<(string, SnapshotId), Tree>, log: seq<Version>,
      offered: set<(nat, SnapshotId)>) {
    && TreeAt(restic, row.spec.data.repository, row.source) == Prior(log, i)
    && (row.result.Some? ==> (i, row.result.value) in offered)
    && (Started(log, i) ==> row.preparedAt.Some?)
    && (!row.Active() ==> row.stopAt.Some? && row.SafeToDiscard())
  }

  ghost predicate Lineage(instances: seq<Instance>, restic: map<(string, SnapshotId), Tree>, log: seq<Version>,
      offered: set<(nat, SnapshotId)>) {
    forall i :: 0 <= i < |instances| ==> InstanceOk(instances[i], i, restic, log, offered)
  }

  // A recorded snapshot holds the final contents of its instance.
  ghost predicate OfferOk(instances: seq<Instance>, restic: map<(string, SnapshotId), Tree>, log: seq<Version>,
      o: (nat, SnapshotId)) {
    && o.0 < |instances|
    && instances[o.0].stopAt.Some? && instances[o.0].preparedAt.Some?
    && ValidSnapshotId(o.1)
    && (instances[o.0].spec.data.repository, o.1) in restic
    && restic[(instances[o.0].spec.data.repository, o.1)] == Prior(log, o.0 + 1)
  }

  ghost predicate OffersOk(instances: seq<Instance>, restic: map<(string, SnapshotId), Tree>, log: seq<Version>,
      offered: set<(nat, SnapshotId)>) {
    && (forall o :: o in offered ==> OfferOk(instances, restic, log, o))
    && (forall o, p :: o in offered && p in offered && o.1 == p.1 ==> o == p)
  }

  ghost predicate ComputeOk(instances: seq<Instance>, r: Compute) {
    && r.instance < |instances|
    && r.provider == ProviderOf(instances[r.instance].spec.compute)
    && (r.shutdownAt.Some? ==> instances[r.instance].stopAt.Some? && instances[r.instance].SafeToDiscard())
    && (!r.Active() ==> r.shutdownAt.Some?)
    && (!instances[r.instance].Active() ==> !r.Active())
  }

  // One compute record per instance, ever.
  ghost predicate ComputesTied(instances: seq<Instance>, computes: seq<Compute>) {
    && (forall c :: 0 <= c < |computes| ==> ComputeOk(instances, computes[c]))
    && (forall c, d :: 0 <= c < d < |computes| ==> computes[c].instance != computes[d].instance)
  }

  ghost predicate CommandOk(row: Instance, i: nat, node: Node, cmd: Command, offered: set<(nat, SnapshotId)>) {
    && cmd == CommandFor(cmd.kind, i, row)
    && match cmd.kind
       case Restore => row.preparedAt.None?
       case Start => row.preparedAt.Some? && row.result.None? && !Offered(offered, i)
       case Stop => true
       case Backup => row.stopAt.Some? && row.preparedAt.Some? && row.result.None?
       case Cleanup => row.stopAt.Some? && row.SafeToDiscard() && (row.result.None? ==> node.state.None?)
  }

  // What a finished command leaves behind until the next one is sent.
  ghost predicate ReplyOk(i: nat, node: Node, reply: Reply, offered: set<(nat, SnapshotId)>) {
    && (reply.Done? && reply.kind == Restore ==> node.state.Some?)
    && (reply.Taken? ==> (i, reply.id) in offered)
  }

  ghost predicate NodeOk(row: Instance, i: nat, node: Node, log: seq<Version>, offered: set<(nat, SnapshotId)>) {
    && (node.state.Some? ==> node.state.value.instance == i && node.state.value.token == row.token)
    && (node.state.Some? && node.state.value.last.Some? ==> (i, node.state.value.last.value) in offered)
    && (node.state.Some? && row.result.None? ==> node.data == Whole(Prior(log, i + 1)))
    && (node.container == Up ==> node.state.Some? && row.preparedAt.Some? && row.result.None? && !Offered(offered, i))
    && (node.inflight.Some? ==> node.reply.None? && CommandOk(row, i, node, node.inflight.value, offered))
    && (node.reply.Some? ==> ReplyOk(i, node, node.reply.value, offered))
  }

  ghost predicate NodesOk(instances: seq<Instance>, computes: seq<Compute>, nodes: map<nat, Node>, log: seq<Version>,
      offered: set<(nat, SnapshotId)>) {
    forall c :: c in nodes ==>
      && c < |computes| && computes[c].instance < |instances|
      && NodeOk(instances[computes[c].instance], computes[c].instance, nodes[c], log, offered)
  }

  ghost predicate SessionsOk(nodes: map<nat, Node>, sessions: map<nat, Session>) {
    forall c :: c in sessions && sessions[c] == Live ==> c in nodes && nodes[c].agentUp
  }

  ghost predicate Inv(w: World) {
    && LogOk(|w.db.instances|, w.log)
    && Lineage(w.db.instances, w.restic, w.log, w.offered)
    && OffersOk(w.db.instances, w.restic, w.log, w.offered)
    && ComputesTied(w.db.instances, w.db.computes)
    && NodesOk(w.db.instances, w.db.computes, w.nodes, w.log, w.offered)
    && SessionsOk(w.nodes, w.sessions)
  }

  ghost predicate Safe(w: World) {
    DbInv(w.db) && Inv(w)
  }
}
