/** The single steps of the reconciler, seen from outside: what each of them
    needs, what it leaves, and that it brings the server closer to its goal. */
module Steps {
  import opened Domain
  import opened Database
  import opened Lifecycle
  import opened Safety
  import opened Interference
  import opened Convergence

  datatype Failure = Unavailable | WrongProvider | MachineLost | WritableDataLost | GenerationExhausted

  datatype Ending = Arrived | Retry | Blocked(error: Failure) | DidNotConverge

  const MAX_IMMEDIATE_TRANSITIONS: nat := 32

  datatype StepOutcome = Changed | Stable | Awaiting

  datatype Report = Report(prepared: bool, running: bool, last: Option<SnapshotId>)

  // Compute `c` is the machine of the active instance `i`.
  ghost predicate Holds(db: Db, i: nat, c: nat) {
    && i < |db.instances| && db.instances[i].Active()
    && c < |db.computes| && db.computes[c].instance == i && db.computes[c].Active()
  }

  // The machine, if it still exists, executes nothing.
  ghost predicate Idle(w: World, c: nat) {
    c in w.nodes ==> w.nodes[c].inflight.None?
  }

  ghost predicate Prepared(w: World, c: nat) {
    c in w.nodes ==> w.nodes[c].inflight.None? && w.nodes[c].state.Some?
  }

  // What an unhurried agent makes of a command.
  ghost predicate NodeAnswered(n: Node, n': Node, kind: Kind, reply: Reply) {
    && n'.id == n.id && n'.agentUp == n.agentUp && n'.inflight.None?
    && match kind
       case Restore => n'.state.Some? && n'.container == n.container
       case Start => n'.state == n.state && n'.container == Up
       case Stop => n'.state == n.state && n'.container == (if n.container == Up then Exited else n.container)
       case Backup => n'.state.Some? && n'.container == n.container && reply.Taken?
       case Cleanup =>
           n'.state.None? && n'.container == NoContainer && n'.data == Missing && reply == Done(Cleanup, HasStorage(n))
  }

  // The repository has at most one snapshot more, under this id.
  ghost predicate Grew(a: map<(string, SnapshotId), Tree>, b: map<(string, SnapshotId), Tree>, id: SnapshotId) {
    forall r :: r in b ==> r in a || r.1 == id
  }

  ghost predicate Answered(w: World, w': World, c: nat, kind: Kind, id: SnapshotId) {
    && Grew(w.restic, w'.restic, id) && (kind != Backup ==> w'.restic == w.restic)
    && w'.db == w.db && w'.sessions == w.sessions && c in w.nodes && c in w'.nodes
    && w'.nodes == w.nodes[c := w'.nodes[c]] && w.offered <= w'.offered
    && w'.nodes[c].reply.Some? && Answers(kind, w'.nodes[c].reply.value)
    && NodeAnswered(w.nodes[c], w'.nodes[c], kind, w'.nodes[c].reply.value)
  }

  // The machine carries its own instance's state, and the snapshot to restore exists.
  ghost predicate Intact(w: World, i: nat, c: nat)
    requires Holds(w.db, i, c)
  {
    && c in w.nodes
    && (w.nodes[c].state.Some? ==>
        w.nodes[c].state.value.instance == i && w.nodes[c].state.value.token == w.db.instances[i].token)
    && (w.nodes[c].state.Some? && w.nodes[c].state.value.last.Some? ==>
        (i, w.nodes[c].state.value.last.value) in w.offered)
    && (w.nodes[c].container == Up ==> w.nodes[c].state.Some?)
    && (w.nodes[c].reply.Some? ==>
        w.nodes[c].inflight.None? && ReplyOk(i, w.nodes[c], w.nodes[c].reply.value, w.offered))
    && TreeAt(w.restic, w.db.instances[i].spec.data.repository, w.db.instances[i].source) != Torn
  }

  // The last move of a command brings about what was asked.
  lemma FinishAnswers(w: World, i: nat, c: nat, kind: Kind, id: SnapshotId)
    requires Holds(w.db, i, c) && Intact(w, i, c) && Ready(w.nodes[c], kind)
    requires w.nodes[c].inflight == Some(CommandFor(kind, i, w.db.instances[i]))
    requires kind == Start ==> w.nodes[c].container != NoContainer
    requires kind == Backup ==> FreshId(w, id)
    ensures Enabled(w, Agent(c, Finish(id, HasStorage(w.nodes[c]))))
    ensures Answered(w, Apply(w, Agent(c, Finish(id, HasStorage(w.nodes[c])))), c, kind, id)
  {
    var w' := Apply(w, Agent(c, Finish(id, HasStorage(w.nodes[c]))));
    assert w'.nodes == w.nodes[c := w'.nodes[c]];
  }

  // What the agent needs to find on its machine.
  ghost predicate Ready(node: Node, kind: Kind) {
    match kind
    case Restore => true
    case Start => node.state.Some?
    case Stop => node.state.Some?
    case Backup => node.state.Some? && node.container != Up
    case Cleanup => true
  }

  predicate Answers(kind: Kind, reply: Reply) {
    if kind == Backup then reply.Taken? else reply.Done? && reply.kind == kind
  }

  function ReportOf(node: Node): Report {
    Report(node.state.Some?, node.container == Up, if node.state.Some? then node.state.value.last else None)
  }

  // What a report says stays true until the next command, except that a process may exit.
  ghost predicate Reported(w: World, i: nat, c: nat, report: Report) {
    && (c in w.nodes ==> w.nodes[c].inflight.None? && w.nodes[c].state.Some? == report.prepared)
    && (report.last.Some? ==> (i, report.last.value) in w.offered)
    && (report.running ==> report.prepared)
  }

  // The row says what the report says.
  predicate Recorded(row: Instance, report: Report) {
    (report.prepared ==> row.preparedAt.Some?) && row.observedAt.Some? && row.running == report.running
  }

  // Across a call the rows keep their meaning; only the machine may move on.
  ghost predicate Steady(w: World, w': World) {
    && w'.db.instances == w.db.instances
    && SameComputes(w.db.computes, w'.db.computes)
    && w.offered <= w'.offered
    && ReadEarlier(w.db.server, w'.db.server)
  }

  lemma {:induction false} SteadyChains(a: World, b: World, c: World)
    requires Steady(a, b) && Steady(b, c)
    ensures Steady(a, c)
  {
    forall k | 0 <= k < |a.db.computes| ensures SameCompute(a.db.computes[k], c.db.computes[k]) {
      assert SameCompute(a.db.computes[k], b.db.computes[k]) && SameCompute(b.db.computes[k], c.db.computes[k]);
    }
  }

  // The machine, if it still exists, holds no data it would have to keep.
  ghost predicate Unprepared(w: World, c: nat) {
    c in w.nodes ==> w.nodes[c].inflight.None? && w.nodes[c].state.None?
  }

  predicate Connected(w: World, c: nat) {
    c in w.sessions && w.sessions[c] == Live && c in w.nodes && w.nodes[c].inflight.None?
  }

  // Across `ensure`, compute rows may appear.
  ghost predicate Onward(w: World, w': World) {
    && w'.db.instances == w.db.instances
    && w.offered <= w'.offered
    && ReadEarlier(w.db.server, w'.db.server)
  }

  // The compute row has its machine, and the row knows it.
  ghost predicate Provided(w: World, w': World, c: nat) {
    && c < |w.db.computes| && |w'.db.computes| == |w.db.computes| && c in w'.nodes
    && w'.db == w.db.(computes := w.db.computes[c := w'.db.computes[c]])
    && w'.db.computes[c] == w.db.computes[c].(machine := Some(w'.nodes[c].id), updatedAt := w'.db.computes[c].updatedAt)
    && w'.sessions == w.sessions && w'.restic == w.restic
    && w'.nodes == w.nodes[c := w'.nodes[c]]
    && w'.nodes[c] ==
        (if c in w.nodes then w.nodes[c].(agentUp := w'.nodes[c].agentUp) else BARE.(id := w'.nodes[c].id))
    && (c in w.nodes && w.nodes[c].agentUp ==> w'.nodes[c].agentUp)
  }

  function FocusAt(w: World, i: nat, c: nat): Focus
    requires i < |w.db.instances| && c < |w.db.computes|
  {
    Focus(w.db.server.desired, Some(w.db.instances[i]), Some(w.db.computes[c]),
          if c in w.nodes then Some(w.nodes[c]) else None)
  }

  ghost predicate NotShutDown(cs: seq<Compute>, i: nat) {
    forall c :: 0 <= c < |cs| && cs[c].instance == i && cs[c].Active() ==> cs[c].shutdownAt.None?
  }

  // What `ensure` leaves when it reports a change.
  ghost predicate EnsuredFocus(f: Focus, f': Focus) {
    && f.row.Some? && f'.row == f.row && f'.desired == f.desired
    && f'.compute.Some? && f'.node.Some? && f'.compute.value.machine == Some(f'.node.value.id)
    && (if f.compute.Some? && f.node.Some? then
          && f'.node.value == f.node.value.(agentUp := f'.node.value.agentUp)
          && (f.node.value.agentUp ==> f'.node.value.agentUp)
          && (f.compute.value.machine != Some(f.node.value.id) || f'.node.value.agentUp != f.node.value.agentUp)
        else
          f'.node.value == BARE.(id := f'.node.value.id))
  }

  lemma EnsuredRank(f: Focus, f': Focus)
    requires EnsuredFocus(f, f') && (f.row.value.stopAt.Some? ==> f.compute.Some?)
    ensures f.row.value.stopAt.Some? || f.desired == Running ==> Rank(f') < Rank(f)
  {}

  ghost predicate Marked(row: Instance, row': Instance) {
    row'.preparedAt.Some? && row' == row.(preparedAt := row'.preparedAt, updatedAt := row'.updatedAt)
  }

  ghost predicate Observed(row: Instance, row': Instance, running: bool) {
    row'.observedAt.Some?
        && row' == row.(running := running, observedAt := row'.observedAt, updatedAt := row'.updatedAt)
  }

  ghost predicate HasResult(row: Instance, row': Instance) {
    row'.result.Some? && row' == row.(result := row'.result, updatedAt := row'.updatedAt)
  }

  // Something about the machine is now on record that was not before.
  ghost predicate Noted(f: Focus, f': Focus) {
    && f.row.Some? && f'.row.Some? && f.compute.Some? && f.node.Some?
    && f' == f.(row := f'.row)
    && (|| (f.node.value.state.Some? && f.row.value.preparedAt.None? && Marked(f.row.value, f'.row.value))
        || (Unobserved(f.row.value, f.node.value) && Observed(f.row.value, f'.row.value, f.node.value.container == Up)))
  }

  lemma NotedRank(f: Focus, f': Focus)
    requires Noted(f, f') && (f.row.value.stopAt.Some? || f.desired == Running)
    ensures Rank(f') < Rank(f)
  {}

  // A command took effect and the row says so.
  ghost predicate Stepped(f: Focus, f': Focus, kind: Kind) {
    && f.row.Some? && f'.row.Some? && f.node.Some? && f'.node.Some? && f'.node.value.reply.Some?
    && f.compute.Some? && f'.compute == f.compute && f'.desired == f.desired
    && NodeAnswered(f.node.value, f'.node.value, kind, f'.node.value.reply.value)
    && match kind
       case Restore => Marked(f.row.value, f'.row.value)
       case Start => Observed(f.row.value, f'.row.value, true)
       case Stop => Observed(f.row.value, f'.row.value, false)
       case Backup => HasResult(f.row.value, f'.row.value)
       case Cleanup => f'.row == f.row && HasStorage(f.node.value)
  }

  // What the reconciler has checked before it sends each command.
  ghost predicate Due(f: Focus, kind: Kind) {
    && f.row.Some? && f.node.Some?
    && match kind
       case Restore => f.row.value.stopAt.None? && f.row.value.preparedAt.None? && f.desired == Running
       case Start =>
           f.row.value.stopAt.None? && f.desired == Running && f.node.value.state.Some? && f.node.value.container != Up
           && !Unobserved(f.row.value, f.node.value)
       case Stop =>
           f.row.value.stopAt.Some? && f.node.value.state.Some? && f.node.value.container == Up
           && !Unobserved(f.row.value, f.node.value)
       case Backup => f.row.value.stopAt.Some? && f.row.value.result.None? && f.node.value.state.Some?
       case Cleanup =>
           f.row.value.stopAt.Some? && f.node.value.container != Up
           && (f.row.value.result.Some? || f.node.value.state.None?)
  }

  lemma SteppedRank(f: Focus, f': Focus, kind: Kind)
    requires Stepped(f, f', kind) && Due(f, kind)
    ensures Rank(f') < Rank(f)
  {}

  // Nothing is on the machine that its record leads to, if there is one at all.
  ghost predicate Bare(w: World, c: nat) {
    Leaves(w, c) ==> w.nodes[c].inflight.None? && w.nodes[c].reply == Some(Done(Cleanup, true))
  }

  // Either the machine is bare now, or it is gone.
  ghost predicate Cleaned(f: Focus, f': Focus) {
    Stepped(f, f', Cleanup) || f' == Focus(f.desired, f.row, None, None)
  }

  // The agent of the machine at hand has no session.
  predicate Unconnected(w: World) {
    var a := ActiveOf(w.db.instances);
    a.Some? && var c := ComputeOf(w.db.computes, a.value); c.Some? && c.value !in w.sessions
  }

  // Transitions follow each other as long as each changes something, and how that ends.
  ghost predicate Concluded(steps: seq<Result<StepOutcome, Failure>>, r: Ending) {
    && 0 < |steps| <= MAX_IMMEDIATE_TRANSITIONS
    && (forall k :: 0 <= k < |steps| - 1 ==> steps[k] == Ok(Changed))
    && match r
       case Arrived => steps[|steps| - 1] == Ok(Stable)
       case Retry => steps[|steps| - 1] == Ok(Awaiting)
       case Blocked(error) => steps[|steps| - 1] == Err(error)
       case DidNotConverge => |steps| == MAX_IMMEDIATE_TRANSITIONS && steps[|steps| - 1] == Ok(Changed)
  }

  // A stop of a running server whose VM is past its lifetime.
  ghost predicate Overdue(w: World, st: Statement, lifetime: nat) {
    && st.UpdateDesired? && st.read.desired == Running && st.desired == Stopped
    && exists c :: 0 <= c < |w.db.computes| && Lapsed(w.db.computes[c], st.now, lifetime)
  }

  // The VM of the active instance was created at least `lifetime` ago.
  predicate Lapsed(r: Compute, now: nat, lifetime: nat) {
    r.Active() && r.provider == AkamaiVm && now >= r.createdAt + lifetime
  }

  // Whatever edits the server row, except at the positions in `others`, is such a stop.
  ghost predicate EditsOnlyOverdue(ws: seq<World>, es: seq<Event>, others: set<nat>, lifetime: nat) {
    |ws| == |es| + 1 && forall k :: 0 <= k < |es| && k !in others && es[k].Sql? && IsEdit(es[k].st) ==>
      Overdue(ws[k], es[k].st, lifetime)
  }

  lemma EditsExtend(ws: seq<World>, es: seq<Event>, others: set<nat>, lifetime: nat, e: Event)
    requires EditsOnlyOverdue(ws, es, others, lifetime)
    requires e.Sql? && IsEdit(e.st) ==> Overdue(ws[|es|], e.st, lifetime)
    ensures forall w :: EditsOnlyOverdue(ws + [w], es + [e], others, lifetime)
  {}

  lemma EditsAmong(ws: seq<World>, es: seq<Event>, others: set<nat>, lifetime: nat, e: Event)
    requires EditsOnlyOverdue(ws, es, others, lifetime)
    ensures forall w :: EditsOnlyOverdue(ws + [w], es + [e], others + {|es|}, lifetime)
  {}

  // Prepared data went with the VM.
  predicate Irreplaceable(db: Db, i: nat, c: nat)
    requires i < |db.instances| && c < |db.computes|
  {
    db.computes[c].provider == AkamaiVm && db.instances[i].preparedAt.Some?
  }

  // A local machine without its agent process.
  predicate Asleep(w: World, c: nat)
    requires c in w.nodes && c < |w.db.computes|
  {
    w.db.computes[c].provider == LocalProcess && !w.nodes[c].agentUp
  }

  // Something about row, machine or agent process has to be ensured.
  predicate Lacking(f: Focus) {
    || f.compute.None? || f.node.None? || f.compute.value.machine != Some(f.node.value.id)
    || (f.compute.value.provider == LocalProcess && !f.node.value.agentUp)
  }

  // A settled machine whose lifetime is over.
  predicate Expired(f: Focus, now: nat, lifetime: nat) {
    !Lacking(f) && Lapsed(f.compute.value, now, lifetime)
  }

  // What one undisturbed step amounts to.
  ghost predicate Good(w: World, w': World, r: Result<StepOutcome, Failure>, id: SnapshotId) {
    match r
    case Ok(Changed) => Quiet(w') && Rank(FocusOf(w')) < Rank(FocusOf(w)) && Grew(w.restic, w'.restic, id)
    case Ok(Stable) => w' == w && Settled(w)
    case Ok(Awaiting) => w' == w && Unconnected(w)
    case Err(GenerationExhausted) => FocusOf(w').desired == Running && w'.db.server.generation >= MAX_GENERATION
    case Err(_) => Stuck(FocusOf(w'))
  }

  // A new instance has no machine yet.
  lemma NewRowFocus(s: seq<Instance>, row: Instance, cs: seq<Compute>)
    requires ComputesTied(s, cs) && ActiveOf(s).None? && row.Active()
    ensures ActiveOf(s + [row]) == Some(|s|) && ComputeOf(cs, |s|).None?
  {
    assert (s + [row])[|s|] == row;
  }

  lemma CreatedRank(w: World, now: nat)
    requires ComputesTied(w.db.instances, w.db.computes) && ActiveOf(w.db.instances).None?
    requires w.db.server.desired == Running
    ensures var db := Exec(w.db, CreateInstance(now));
            && |db.instances| > |w.db.instances|
            && Rank(FocusOf(w.(db := db))) < Rank(FocusOf(w))
  {
    NewRowFocus(w.db.instances, NewInstance(w.db, now), w.db.computes);
  }

  lemma RequestedRank(f: Focus, f': Focus)
    requires f.row.Some? && f'.row.Some? && f.row.value.stopAt.None? && f'.row.value.stopAt.Some?
        && f.desired == Stopped
    requires f' == f.(row := f'.row)
        && f'.row.value == f.row.value.(stopAt := f'.row.value.stopAt, updatedAt := f'.row.value.updatedAt)
    ensures Rank(f') < Rank(f)
  {}

  lemma ExpiredRank(f: Focus)
    requires f.row.Some? && f.row.value.stopAt.None? && f.desired == Running
    ensures Rank(f.(desired := Stopped)) < Rank(f)
  {}

  // The data is in the repository and on record.
  ghost predicate Saved(f: Focus, f': Focus) {
    && f.row.Some? && f'.row.Some? && f.node.Some? && f'.node.Some? && f.compute.Some? && f'.compute == f.compute
        && f'.desired == f.desired
    && HasResult(f.row.value, f'.row.value)
    && f'.node.value.id == f.node.value.id && f'.node.value.agentUp == f.node.value.agentUp
    && f'.node.value.container == f.node.value.container && (f.node.value.state.Some? ==> f'.node.value.state.Some?)
  }

  lemma SavedRank(f: Focus, f': Focus)
    requires Saved(f, f') && Due(f, Backup)
    ensures Rank(f') < Rank(f)
  {}

  lemma CleanedRank(f: Focus, f': Focus)
    requires Cleaned(f, f') && Due(f, Cleanup) && f.compute.Some?
    ensures Rank(f') < Rank(f)
  {}

  lemma ReplyNode(row: Instance, n: Node, n': Node, unrecorded: bool)
    requires n' == n.(reply := None)
    ensures NodeRun(row, n', unrecorded) == NodeRun(row, n, unrecorded)
    ensures NodeStop(row, n', unrecorded) == NodeStop(row, n, unrecorded)
  {
    assert HasStorage(n') == HasStorage(n) && Unobserved(row, n') == Unobserved(row, n);
  }

  lemma ReplyRank(f: Focus)
    ensures f.node.Some? ==> Rank(f.(node := Some(f.node.value.(reply := None)))) == Rank(f)
  {
    if f.node.Some? && f.row.Some? && f.compute.Some? {
      var n := f.node.value;
      var f' := f.(node := Some(n.(reply := None)));
      ReplyNode(f.row.value, n, n.(reply := None), f.compute.value.machine != Some(n.id));
      assert RunWork(f') == RunWork(f) && StopWork(f') == StopWork(f);
    }
  }

  // A registration touches nothing but the pending answer.
  lemma JoinFocus(w: World, c: nat)
    requires c in w.nodes
    ensures Rank(FocusOf(w.(nodes := w.nodes[c := w.nodes[c].(reply := None)]))) == Rank(FocusOf(w))
  {
    var w' := w.(nodes := w.nodes[c := w.nodes[c].(reply := None)]);
    ReplyRank(FocusOf(w));
    assert FocusOf(w') == FocusOf(w)
        || (FocusOf(w).node.Some? && FocusOf(w') == FocusOf(w).(node := Some(FocusOf(w).node.value.(reply := None))));
  }

  // Sessions are no part of the focus.
  lemma FocusWithoutSessions(w: World, sessions: map<nat, Session>)
    ensures FocusOf(w.(sessions := sessions)) == FocusOf(w)
  {}

  // No machine can be had: prepared data went with the last one.
  ghost predicate Unobtainable(f: Focus) {
    f.row.Some? && f.row.value.preparedAt.Some? && f.node.None? && ProviderOf(f.row.value.spec.compute) == AkamaiVm
  }

  // The case no reconciler could get past: prepared data that was never saved is gone.
  ghost predicate Stuck(f: Focus) {
    f.row.Some? && f.row.value.preparedAt.Some? && f.row.value.result.None?
        && (f.node.None? || f.node.value.state.None?)
  }

  // Ids restic has not used, one for each transition.
  ghost predicate Supply(w: World, ids: seq<SnapshotId>, n: nat) {
    && (forall k :: n <= k < |ids| ==> FreshId(w, ids[k]))
    && (forall j, k :: 0 <= j < k < |ids| ==> ids[j] != ids[k])
  }

  lemma SupplyLasts(w: World, w': World, ids: seq<SnapshotId>, n: nat)
    requires Supply(w, ids, n) && n < |ids| && Grew(w.restic, w'.restic, ids[n])
    ensures Supply(w', ids, n + 1)
  {
    forall k | n + 1 <= k < |ids| ensures FreshId(w', ids[k]) {
      assert FreshId(w, ids[k]) && ids[n] != ids[k];
    }
  }

  // ------------------------------------------------ what the invariant offers

  // The snapshot an instance starts from is always there to restore.
  lemma SourceStored(w: World, i: nat)
    requires LogOk(|w.db.instances|, w.log) && Lineage(w.db.instances, w.restic, w.log, w.offered)
        && i < |w.db.instances|
    ensures TreeAt(w.restic, w.db.instances[i].spec.data.repository, w.db.instances[i].source) != Torn
  {
    assert InstanceOk(w.db.instances[i], i, w.restic, w.log, w.offered);
    PriorComplete(|w.db.instances|, w.log, i);
  }

  // What is on a machine belongs to its instance, and so does what it reports.
  lemma MachineFacts(w: World, i: nat, c: nat)
    requires NodesOk(w.db.instances, w.db.computes, w.nodes, w.log, w.offered) && Holds(w.db, i, c) && c in w.nodes
    requires TreeAt(w.restic, w.db.instances[i].spec.data.repository, w.db.instances[i].source) != Torn
    ensures Intact(w, i, c)
  {
    assert NodeOk(w.db.instances[i], i, w.nodes[c], w.log, w.offered);
  }

  // An instance has one compute record, ever.
  lemma OnlyCompute(s: seq<Instance>, cs: seq<Compute>, c: nat)
    requires ComputesTied(s, cs) && c < |cs|
    ensures forall d :: 0 <= d < |cs| && cs[d].instance == cs[c].instance ==> d == c
  {}

  lemma MarkAllowed(w: World, i: nat, c: nat, now: nat)
    requires ComputesTied(w.db.instances, w.db.computes) && Holds(w.db, i, c)
    requires w.db.computes[c].shutdownAt.None? && Prepared(w, c)
    ensures Enabled(w, Sql(MarkPrepared(i, now)))
  {
    OnlyCompute(w.db.instances, w.db.computes, c);
  }

  lemma CommitAllowed(w: World, i: nat, c: nat, token: nat, id: SnapshotId, now: nat)
    requires ComputesTied(w.db.instances, w.db.computes) && Holds(w.db, i, c)
    requires (i, id) in w.offered && Idle(w, c)
    ensures Enabled(w, Sql(Commit(i, token, id, now)))
  {
    OnlyCompute(w.db.instances, w.db.computes, c);
  }

  // Shutdown is requested only after a stop, and only once the data may go.
  lemma ShutdownMeansSafe(w: World, i: nat, c: nat)
    requires ComputesTied(w.db.instances, w.db.computes) && Holds(w.db, i, c) && w.db.computes[c].shutdownAt.Some?
    ensures w.db.instances[i].stopAt.Some? && w.db.instances[i].SafeToDiscard()
  {
    assert ComputeOk(w.db.instances, w.db.computes[c]);
  }

  lemma StillNone(w: World, w': World, i: nat)
    requires Rely(w, w') && !HasActiveCompute(w.db.computes, i)
    ensures !HasActiveCompute(w'.db.computes, i)
  {
    forall c | 0 <= c < |w.db.computes| && w'.db.computes[c].instance == i ensures !w'.db.computes[c].Active() {
      assert SameCompute(w.db.computes[c], w'.db.computes[c]);
    }
  }

  lemma NoneFound(w: World, w': World, i: nat)
    requires Rely(w, w') && ComputeOf(w'.db.computes, i).None?
    ensures ComputeOf(w.db.computes, i).None?
  {
    forall c | 0 <= c < |w.db.computes| && w.db.computes[c].instance == i ensures !w.db.computes[c].Active() {
      assert SameCompute(w.db.computes[c], w'.db.computes[c]);
    }
  }
}
