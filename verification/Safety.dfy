/** Every event of the lifecycle keeps the invariant. */
module Safety {
  import opened Domain
  import opened Database
  import opened Lifecycle

  type Archive = map<(string, SnapshotId), Tree>
  type Offers = set<(nat, SnapshotId)>

  // ------------------------------------------------------- contents over time

  lemma PriorAppend(log: seq<Version>, v: Version, i: nat)
    ensures Prior(log + [v], i) == if v.instance < i then v.tree else Prior(log, i)
  {
    assert (log + [v])[..|log|] == log;
  }

  // An instance that never started its process leaves the world as it was.
  lemma {:induction false} PriorSkip(log: seq<Version>, i: nat)
    requires !Started(log, i)
    ensures Prior(log, i + 1) == Prior(log, i)
  {
    if |log| > 0 {
      var last := |log| - 1;
      assert log[last].instance != i;
      forall k | 0 <= k < last ensures log[..last][k].instance != i {
        assert log[k].instance != i;
      }
      PriorSkip(log[..last], i);
    }
  }

  lemma {:induction false} PriorComplete(n: nat, log: seq<Version>, i: nat)
    requires LogOk(n, log)
    ensures Prior(log, i) != Torn
  {
    if |log| > 0 {
      PriorComplete(n, log[..|log| - 1], i);
    }
  }

  lemma StartedAppend(log: seq<Version>, v: Version, i: nat)
    ensures Started(log + [v], i) <==> Started(log, i) || v.instance == i
  {
    var t := log + [v];
    if Started(log, i) {
      var k :| 0 <= k < |log| && log[k].instance == i;
      assert t[k].instance == i;
    }
    if v.instance == i {
      assert t[|log|].instance == i;
    }
  }

  // ------------------------------------------------ one instance row changes

  // Columns no update of an instance row touches.
  ghost predicate SameOrigin(r: Instance, r': Instance) {
    && r'.token == r.token && r'.spec == r.spec && r'.source == r.source
    && (r.stopAt.Some? ==> r'.stopAt.Some?)
    && (r.preparedAt.Some? ==> r'.preparedAt.Some?)
    && (r.result.Some? ==> r'.result == r.result)
  }

  lemma LineageRow(s: seq<Instance>, i: nat, r: Instance, a: Archive, log: seq<Version>, f: Offers)
    requires Lineage(s, a, log, f) && i < |s| && SameOrigin(s[i], r)
    requires r.result.Some? ==> (i, r.result.value) in f
    requires !r.Active() ==> r.stopAt.Some? && r.SafeToDiscard()
    ensures Lineage(s[i := r], a, log, f)
  {
    assert InstanceOk(s[i], i, a, log, f);
  }

  lemma OffersRow(s: seq<Instance>, i: nat, r: Instance, a: Archive, log: seq<Version>, f: Offers)
    requires OffersOk(s, a, log, f) && i < |s| && SameOrigin(s[i], r)
    ensures OffersOk(s[i := r], a, log, f)
  {
    forall o | o in f ensures OfferOk(s[i := r], a, log, o) {
      assert OfferOk(s, a, log, o);
    }
  }

  lemma ComputesRow(s: seq<Instance>, i: nat, r: Instance, cs: seq<Compute>)
    requires ComputesTied(s, cs) && i < |s| && SameOrigin(s[i], r)
    requires !r.SafeToDiscard() ==>
        !s[i].SafeToDiscard() || forall c :: 0 <= c < |cs| && cs[c].instance == i ==> cs[c].shutdownAt.None?
    requires !r.Active() ==> !s[i].Active() || !HasActiveCompute(cs, i)
    ensures ComputesTied(s[i := r], cs)
  {
    forall c | 0 <= c < |cs| ensures ComputeOk(s[i := r], cs[c]) {
      assert ComputeOk(s, cs[c]);
    }
  }

  // What a change of the row must respect on the machine of its instance.
  ghost predicate NodeAllows(r: Instance, r': Instance, node: Node) {
    && (r'.preparedAt.Some? && r.preparedAt.None? ==> node.inflight.None?)
    && (r'.result.Some? && r.result.None? ==> node.container != Up && node.inflight.None?)
  }

  lemma NodeRow(r: Instance, r': Instance, i: nat, node: Node, log: seq<Version>, f: Offers)
    requires NodeOk(r, i, node, log, f) && SameOrigin(r, r') && NodeAllows(r, r', node)
    ensures NodeOk(r', i, node, log, f)
  {}

  lemma NodesRow(s: seq<Instance>, i: nat, r: Instance, cs: seq<Compute>, ns: map<nat, Node>, log: seq<Version>,
      f: Offers)
    requires NodesOk(s, cs, ns, log, f) && i < |s| && SameOrigin(s[i], r)
    requires forall c :: c in ns && c < |cs| && cs[c].instance == i ==> NodeAllows(s[i], r, ns[c])
    ensures NodesOk(s[i := r], cs, ns, log, f)
  {
    forall c | c in ns
      ensures c < |cs| && cs[c].instance < |s| && NodeOk(s[i := r][cs[c].instance], cs[c].instance, ns[c], log, f)
    {
      if cs[c].instance == i {
        NodeRow(s[i], r, i, ns[c], log, f);
      }
    }
  }

  lemma InstanceUpdateOrigin(r: Instance, st: Statement)
    requires OnInstance(st) && r.Active()
    ensures SameOrigin(r, InstanceUpdate(r, st)) && InstanceUpdate(r, st).result == r.result
    ensures st.MarkPrepared? || InstanceUpdate(r, st).preparedAt == r.preparedAt
    ensures st.Complete? || InstanceUpdate(r, st).Active()
  {}

  lemma InstanceStatement(w: World, st: Statement)
    requires Inv(w) && OnInstance(st) && MayExecute(w, st)
    requires st.i < |w.db.instances| && w.db.instances[st.i].Active()
    ensures Inv(w.(db := Exec(w.db, st)))
  {
    var s, i := w.db.instances, st.i;
    var r := InstanceUpdate(s[i], st);
    InstanceUpdateOrigin(s[i], st);
    assert InstanceOk(s[i], i, w.restic, w.log, w.offered);
    LineageRow(s, i, r, w.restic, w.log, w.offered);
    OffersRow(s, i, r, w.restic, w.log, w.offered);
    ComputesRow(s, i, r, w.db.computes);
    forall c | c in w.nodes && c < |w.db.computes| && w.db.computes[c].instance == i
        ensures NodeAllows(s[i], r, w.nodes[c]) {}
    NodesRow(s, i, r, w.db.computes, w.nodes, w.log, w.offered);
  }

  // ------------------------------------------------------ the other statements

  lemma OfferedStops(w: World, i: nat, c: nat)
    requires NodesOk(w.db.instances, w.db.computes, w.nodes, w.log, w.offered)
    requires Offered(w.offered, i) && c in w.nodes && c < |w.db.computes| && w.db.computes[c].instance == i
    ensures w.nodes[c].container != Up
  {}

  lemma CommitStatement(w: World, st: Statement)
    requires Inv(w) && st.Commit? && MayExecute(w, st)
    ensures Inv(w.(db := Exec(w.db, st)))
  {
    var s, i := w.db.instances, st.i;
    if Outcome(w.db, i, st.token, st.id) == Published {
      var r := Exec(w.db, st).instances[i];
      assert OfferOk(s, w.restic, w.log, (i, st.id));
      LineageRow(s, i, r, w.restic, w.log, w.offered);
      OffersRow(s, i, r, w.restic, w.log, w.offered);
      ComputesRow(s, i, r, w.db.computes);
      forall c | c in w.nodes && c < |w.db.computes| && w.db.computes[c].instance == i
          ensures NodeAllows(s[i], r, w.nodes[c]) {
        assert Offered(w.offered, i);
        OfferedStops(w, i, c);
      }
      NodesRow(s, i, r, w.db.computes, w.nodes, w.log, w.offered);
    }
  }

  /** Between instances, the current snapshot holds what the last process left. */
  lemma CurrentTree(w: World)
    requires Inv(w) && !HasActive(w.db.instances)
    requires Chained(w.db.server.current, w.db.instances) && OneStorage(w.db.server.spec, w.db.instances)
    ensures TreeAt(w.restic, Repository(w.db), w.db.server.current) == Prior(w.log, |w.db.instances|)
  {
    var s := w.db.instances;
    if |s| > 0 {
      var last := |s| - 1;
      assert InstanceOk(s[last], last, w.restic, w.log, w.offered);
      assert s[last].spec.data == w.db.server.spec.data;
      if s[last].result.Some? {
        assert OfferOk(s, w.restic, w.log, (last, s[last].result.value));
      } else {
        PriorSkip(w.log, last);
        assert w.db.server.current == s[last].source;
      }
    }
  }

  lemma CreateInstanceStatement(w: World, now: nat)
    requires Inv(w) && CreateApplies(w.db)
    requires Chained(w.db.server.current, w.db.instances) && OneStorage(w.db.server.spec, w.db.instances)
    ensures Inv(w.(db := Exec(w.db, CreateInstance(now))))
  {
    CurrentTree(w);
    var s, r := w.db.instances, NewInstance(w.db, now);
    LineageNew(s, r, w.restic, w.log, w.offered);
    OffersNew(s, r, w.restic, w.log, w.offered);
    ComputesNew(s, r, w.db.computes);
  }

  lemma LineageNew(s: seq<Instance>, r: Instance, a: Archive, log: seq<Version>, f: Offers)
    requires Lineage(s, a, log, f) && LogOk(|s|, log)
    requires r.Active() && r.result.None? && TreeAt(a, r.spec.data.repository, r.source) == Prior(log, |s|)
    ensures Lineage(s + [r], a, log, f)
  {
    assert !Started(log, |s|);
    assert InstanceOk(r, |s|, a, log, f);
  }

  lemma OffersNew(s: seq<Instance>, r: Instance, a: Archive, log: seq<Version>, f: Offers)
    requires OffersOk(s, a, log, f)
    ensures OffersOk(s + [r], a, log, f)
  {
    forall o | o in f ensures OfferOk(s + [r], a, log, o) {
      assert OfferOk(s, a, log, o);
    }
  }

  lemma ComputesNew(s: seq<Instance>, r: Instance, cs: seq<Compute>)
    requires ComputesTied(s, cs)
    ensures ComputesTied(s + [r], cs)
  {
    forall c | 0 <= c < |cs| ensures ComputeOk(s + [r], cs[c]) {
      assert ComputeOk(s, cs[c]);
    }
  }

  lemma ComputeStatement(w: World, st: Statement)
    requires Inv(w) && OnCompute(st) && MayExecute(w, st)
    requires st.c < |w.db.computes| && w.db.computes[st.c].Active()
    ensures Inv(w.(db := Exec(w.db, st)))
  {
    var cs, c := w.db.computes, st.c;
    var r := ComputeUpdate(cs[c], st);
    assert ComputeOk(w.db.instances, cs[c]);
    ComputesCell(w.db.instances, cs, c, r);
    NodesCell(w.db.instances, cs, c, r, w.nodes, w.log, w.offered);
  }

  lemma ComputesCell(s: seq<Instance>, cs: seq<Compute>, c: nat, r: Compute)
    requires ComputesTied(s, cs) && c < |cs| && ComputeOk(s, r) && r.instance == cs[c].instance
    ensures ComputesTied(s, cs[c := r])
  {}

  lemma NodesCell(s: seq<Instance>, cs: seq<Compute>, c: nat, r: Compute, ns: map<nat, Node>, log: seq<Version>,
      f: Offers)
    requires NodesOk(s, cs, ns, log, f) && c < |cs| && r.instance == cs[c].instance
    ensures NodesOk(s, cs[c := r], ns, log, f)
  {}

  lemma CreateComputeStatement(w: World, st: Statement)
    requires Inv(w) && st.CreateCompute? && MayExecute(w, st)
    ensures Inv(w.(db := Exec(w.db, st)))
  {
    var cs, i := w.db.computes, st.i;
    if w.db.instances[i].Active() && !HasActiveCompute(cs, i) {
      forall c | 0 <= c < |cs| ensures cs[c].instance != i {
        assert ComputeOk(w.db.instances, cs[c]);
      }
      var r := Compute(i, st.provider, None, None, None, None, None, st.now, st.now);
      ComputesMore(w.db.instances, cs, r);
      assert NodesOk(w.db.instances, cs + [r], w.nodes, w.log, w.offered);
    }
  }

  lemma ComputesMore(s: seq<Instance>, cs: seq<Compute>, r: Compute)
    requires ComputesTied(s, cs) && ComputeOk(s, r)
    requires forall c :: 0 <= c < |cs| ==> cs[c].instance != r.instance
    ensures ComputesTied(s, cs + [r])
  {}

  lemma SqlKeeps(w: World, st: Statement)
    requires Inv(w) && MayExecute(w, st)
    requires Chained(w.db.server.current, w.db.instances) && OneStorage(w.db.server.spec, w.db.instances)
    ensures Inv(w.(db := Exec(w.db, st)))
  {
    if Exec(w.db, st) == w.db {
    } else if IsEdit(st) {
    } else if OnInstance(st) {
      InstanceStatement(w, st);
    } else if OnCompute(st) {
      ComputeStatement(w, st);
    } else if st.Commit? {
      CommitStatement(w, st);
    } else if st.CreateCompute? {
      CreateComputeStatement(w, st);
    } else {
      CreateInstanceStatement(w, st.now);
    }
  }

  // ------------------------------------------------------ machines and agents

  // A move touches its own machine and nothing else.
  lemma FinishedHere(w: World, c: nat, cmd: Command, id: SnapshotId, changed: bool)
    requires c in w.nodes
    ensures var w' := Finished(w, c, w.nodes[c], cmd, id, changed);
            && c in w'.nodes && w'.nodes == w.nodes[c := w'.nodes[c]] && w'.nodes[c].id == w.nodes[c].id
            && w'.db == w.db && w.offered <= w'.offered
  {
    var w' := Finished(w, c, w.nodes[c], cmd, id, changed);
    assert w'.nodes == w.nodes[c := w'.nodes[c]];
  }

  lemma MovedHere(w: World, c: nat, move: Move)
    requires c in w.nodes && w.nodes[c].inflight.Some?
    ensures var w' := Moved(w, c, move);
            && c in w'.nodes && w'.nodes == w.nodes[c := w'.nodes[c]] && w'.nodes[c].id == w.nodes[c].id
            && w'.db == w.db && w.offered <= w'.offered
  {
    var cmd := w.nodes[c].inflight.value;
    if move.Finish? || move.Falter? {
      FinishedHere(w, c, cmd, move.snapshot, move.changed);
    }
    var w' := Moved(w, c, move);
    assert w'.nodes == w.nodes[c := w'.nodes[c]];
  }

  // Replacing one machine.
  lemma NodesPut(w: World, c: nat, node: Node)
    requires NodesOk(w.db.instances, w.db.computes, w.nodes, w.log, w.offered) && Tied(w.db, c)
    requires NodeOk(Row(w.db, c), w.db.computes[c].instance, node, w.log, w.offered)
    ensures NodesOk(w.db.instances, w.db.computes, w.nodes[c := node], w.log, w.offered)
  {}

  // Replacing one machine and adjusting its session leaves everything else alone.
  lemma PutKeeps(w: World, c: nat, node: Node, sessions: map<nat, Session>)
    requires Inv(w) && Tied(w.db, c)
    requires NodeOk(Row(w.db, c), w.db.computes[c].instance, node, w.log, w.offered)
    requires SessionsOk(w.nodes[c := node], sessions)
    ensures Inv(w.(nodes := w.nodes[c := node], sessions := sessions))
  {
    NodesPut(w, c, node);
  }

  lemma SameAgents(w: World, c: nat, node: Node)
    requires SessionsOk(w.nodes, w.sessions) && c in w.nodes && node.agentUp == w.nodes[c].agentUp
    ensures SessionsOk(w.nodes[c := node], w.sessions)
  {}

  lemma NodeAt(w: World, c: nat)
    requires NodesOk(w.db.instances, w.db.computes, w.nodes, w.log, w.offered) && c in w.nodes
    ensures Tied(w.db, c)
    ensures NodeOk(Row(w.db, c), w.db.computes[c].instance, w.nodes[c], w.log, w.offered)
  {}

  // A reply that tells the caller nothing it could not see for itself.
  ghost predicate Harmless(node: Node, reply: Reply) {
    reply == Refused || (reply.Done? && (reply.kind == Restore ==> node.state.Some?))
  }

  // Losing the command in flight, or the process, is always allowed.
  lemma NodeQuiet(row: Instance, i: nat, node: Node, node': Node, log: seq<Version>, f: Offers)
    requires NodeOk(row, i, node, log, f)
    requires node'.state == node.state && node'.data == node.data
    requires node'.container == node.container || node'.container != Up
    requires node'.inflight == node.inflight || node'.inflight.None?
    requires node'.reply == node.reply || node'.reply.None?
        || (node'.inflight.None? && Harmless(node, node'.reply.value))
    ensures NodeOk(row, i, node', log, f)
  {}

  lemma QuietPut(w: World, c: nat, node': Node, sessions: map<nat, Session>)
    requires Inv(w) && c in w.nodes
    requires node'.state == w.nodes[c].state && node'.data == w.nodes[c].data
    requires node'.container == w.nodes[c].container || node'.container != Up
    requires node'.inflight == w.nodes[c].inflight || node'.inflight.None?
    requires node'.reply == w.nodes[c].reply || node'.reply.None?
        || (node'.inflight.None? && Harmless(w.nodes[c], node'.reply.value))
    requires SessionsOk(w.nodes[c := node'], sessions)
    ensures Inv(w.(nodes := w.nodes[c := node'], sessions := sessions))
  {
    NodeAt(w, c);
    NodeQuiet(Row(w.db, c), w.db.computes[c].instance, w.nodes[c], node', w.log, w.offered);
    PutKeeps(w, c, node', sessions);
  }

  lemma UpKeeps(w: World, c: nat)
    requires Inv(w) && Enabled(w, AgentUp(c))
    ensures Inv(Apply(w, AgentUp(c)))
  {
    QuietPut(w, c, w.nodes[c].(agentUp := true), w.sessions);
  }

  lemma AbortKeeps(w: World, c: nat)
    requires Inv(w) && Enabled(w, Abort(c))
    ensures Inv(Apply(w, Abort(c)))
  {
    QuietPut(w, c, w.nodes[c].(inflight := None, reply := None), w.sessions);
  }

  lemma ExitKeeps(w: World, c: nat)
    requires Inv(w) && Enabled(w, Exit(c))
    ensures Inv(Apply(w, Exit(c)))
  {
    QuietPut(w, c, w.nodes[c].(container := Exited), w.sessions);
  }

  lemma DownKeeps(w: World, c: nat)
    requires Inv(w) && c in w.nodes
    ensures Inv(Apply(w, AgentDown(c)))
  {
    QuietPut(w, c, w.nodes[c].(agentUp := false, inflight := None, reply := None), Sever(w.sessions, c));
  }

  lemma RegisterKeeps(w: World, c: nat)
    requires Inv(w) && c in w.nodes && w.nodes[c].agentUp
    ensures Inv(Apply(w, Register(c)))
  {
    QuietPut(w, c, w.nodes[c].(reply := None), w.sessions[c := Live]);
  }

  lemma ProvisionKeeps(w: World, c: nat, id: nat)
    requires Inv(w) && Enabled(w, Provision(c, id))
    ensures Inv(Apply(w, Provision(c, id)))
  {
    PutKeeps(w, c, BARE.(id := id), w.sessions);
  }

  lemma OfferedMeansStopped(w: World, i: nat)
    requires Lineage(w.db.instances, w.restic, w.log, w.offered) && OffersOk(w.db.instances, w.restic, w.log, w.offered)
    requires i < |w.db.instances|
    ensures Offered(w.offered, i) ==> w.db.instances[i].stopAt.Some?
    ensures w.db.instances[i].result.Some? ==> Offered(w.offered, i)
  {
    assert InstanceOk(w.db.instances[i], i, w.restic, w.log, w.offered);
    if Offered(w.offered, i) {
      var o :| o in w.offered && o.0 == i;
      assert OfferOk(w.db.instances, w.restic, w.log, o);
    }
  }

  lemma SendCommandOk(row: Instance, i: nat, node: Node, kind: Kind, f: Offers)
    requires MaySend(row, node, kind)
    requires (Offered(f, i) ==> row.stopAt.Some?) && (row.result.Some? ==> Offered(f, i))
    ensures CommandOk(row, i, node, CommandFor(kind, i, row), f)
  {}

  lemma SendKeeps(w: World, c: nat, kind: Kind)
    requires Inv(w) && Enabled(w, Send(c, kind))
    ensures Inv(Apply(w, Send(c, kind)))
  {
    var i, row := w.db.computes[c].instance, Row(w.db, c);
    OfferedMeansStopped(w, i);
    NodeAt(w, c);
    SendCommandOk(row, i, w.nodes[c], kind, w.offered);
    PutKeeps(w, c, w.nodes[c].(inflight := Some(CommandFor(kind, i, row)), reply := None), w.sessions);
  }

  lemma NodesLess(w: World, c: nat)
    requires NodesOk(w.db.instances, w.db.computes, w.nodes, w.log, w.offered) && SessionsOk(w.nodes, w.sessions)
    ensures NodesOk(w.db.instances, w.db.computes, w.nodes - {c}, w.log, w.offered)
    ensures SessionsOk(w.nodes - {c}, Sever(w.sessions, c))
  {}

  lemma VanishKeeps(w: World, e: Event)
    requires Inv(w) && Enabled(w, e) && (e.Lose? || e.Destroy?)
    ensures Inv(Apply(w, e))
  {
    NodesLess(w, e.c);
  }

  lemma DisconnectKeeps(w: World, e: Event)
    requires Inv(w) && Enabled(w, e) && e.Disconnect?
    ensures Inv(Apply(w, e))
  {}

  // ------------------------------------------------------------ agent commands

  // Steps of a command that change nothing but the machine.
  lemma LocalMove(row: Instance, i: nat, node: Node, cmd: Command, move: Move, w: World, node': Node)
    requires NodeOk(row, i, node, w.log, w.offered) && node.inflight == Some(cmd) && MoveOk(w, node, cmd, move)
    requires match move
             case Refuse => node' == Settle(node, Refused)
             case Scratch(d) => node' == node.(data := d)
             case Drop => node' == node.(container := NoContainer)
             case Make => node' == node.(container := Exited)
             case _ => false
    ensures NodeOk(row, i, node', w.log, w.offered)
  {}

  lemma FinishStopOrCleanup(row: Instance, i: nat, node: Node, cmd: Command, w: World, node': Node)
    requires NodeOk(row, i, node, w.log, w.offered) && node.inflight == Some(cmd)
    requires node'.inflight.None? && node'.reply.Some? && node'.reply.value.Done? && node'.reply.value.kind == cmd.kind
    requires match cmd.kind
             case Stop => node'.state == node.state && node'.data == node.data && node'.container != Up
             case Cleanup => node'.state.None? && node'.container != Up
             case _ => false
    ensures NodeOk(row, i, node', w.log, w.offered)
  {}

  lemma FinishRestore(w: World, c: nat, cmd: Command)
    requires Inv(w) && c in w.nodes && Tied(w.db, c)
    requires w.nodes[c].inflight == Some(cmd) && cmd.kind == Restore
    requires w.nodes[c].state.None?
    ensures var i := w.db.computes[c].instance;
            NodeOk(Row(w.db, c), i,
                   Settle(w.nodes[c].(data := Whole(TreeAt(w.restic, cmd.repository, cmd.source)),
                                      state := Some(AgentState(cmd.instance, cmd.token, None))), Done(Restore, true)),
                   w.log, w.offered)
  {
    var i, row := w.db.computes[c].instance, Row(w.db, c);
    NodeAt(w, c);
    assert InstanceOk(row, i, w.restic, w.log, w.offered);
    PriorSkip(w.log, i);
  }

  // ------------------------------------------- events that extend the history

  // The machine that runs a process belongs to the newest instance.
  lemma RunsLast(w: World, c: nat)
    requires Inv(w) && Fenced(w.db.server.nextToken, w.db.instances) && c in w.nodes && Tied(w.db, c)
    requires Row(w.db, c).preparedAt.Some? && Row(w.db, c).result.None?
    ensures Row(w.db, c).Active() && w.db.computes[c].instance == |w.db.instances| - 1
  {
    var i := w.db.computes[c].instance;
    assert InstanceOk(w.db.instances[i], i, w.restic, w.log, w.offered);
    ActiveIsLast(w.db.server.nextToken, w.db.instances, i);
  }

  lemma LogGrows(n: nat, log: seq<Version>, v: Version)
    requires LogOk(n, log) && v.instance == n - 1 && v.tree != Torn
    ensures LogOk(n, log + [v])
  {}

  lemma LineageGrows(s: seq<Instance>, a: Archive, log: seq<Version>, v: Version, f: Offers)
    requires Lineage(s, a, log, f) && |s| > 0 && v.instance == |s| - 1 && s[v.instance].preparedAt.Some?
    ensures Lineage(s, a, log + [v], f)
  {
    forall i | 0 <= i < |s| ensures InstanceOk(s[i], i, a, log + [v], f) {
      assert InstanceOk(s[i], i, a, log, f);
      PriorAppend(log, v, i);
      StartedAppend(log, v, i);
    }
  }

  lemma OffersGrow(s: seq<Instance>, a: Archive, log: seq<Version>, v: Version, f: Offers)
    requires OffersOk(s, a, log, f) && v.instance == |s| - 1 && !Offered(f, v.instance)
    ensures OffersOk(s, a, log + [v], f)
  {
    forall o | o in f ensures OfferOk(s, a, log + [v], o) {
      assert OfferOk(s, a, log, o);
      PriorAppend(log, v, o.0 + 1);
    }
  }

  lemma NodesGrow(w: World, c: nat, node: Node, v: Version)
    requires NodesOk(w.db.instances, w.db.computes, w.nodes, w.log, w.offered)
    requires ComputesTied(w.db.instances, w.db.computes)
    requires Tied(w.db, c) && v.instance == w.db.computes[c].instance == |w.db.instances| - 1
    requires NodeOk(Row(w.db, c), v.instance, node, w.log + [v], w.offered)
    ensures NodesOk(w.db.instances, w.db.computes, w.nodes[c := node], w.log + [v], w.offered)
  {
    forall d | d in w.nodes && d != c
      ensures Tied(w.db, d) && NodeOk(Row(w.db, d), w.db.computes[d].instance, w.nodes[d], w.log + [v], w.offered)
    {
      var i := w.db.computes[d].instance;
      assert i != v.instance;
      PriorAppend(w.log, v, i + 1);
    }
  }

  lemma Grow(w: World, c: nat, node: Node, v: Version)
    requires Inv(w) && Fenced(w.db.server.nextToken, w.db.instances) && c in w.nodes && Tied(w.db, c)
    requires Row(w.db, c).preparedAt.Some? && Row(w.db, c).result.None? && !Offered(w.offered, v.instance)
    requires v.instance == w.db.computes[c].instance && v.tree != Torn
    requires NodeOk(Row(w.db, c), v.instance, node, w.log + [v], w.offered) && node.agentUp == w.nodes[c].agentUp
    ensures Inv(w.(nodes := w.nodes[c := node], log := w.log + [v]))
  {
    RunsLast(w, c);
    LogGrows(|w.db.instances|, w.log, v);
    LineageGrows(w.db.instances, w.restic, w.log, v, w.offered);
    OffersGrow(w.db.instances, w.restic, w.log, v, w.offered);
    NodesGrow(w, c, node, v);
  }

  lemma WriteKeeps(w: World, c: nat, tree: Tree)
    requires Inv(w) && Fenced(w.db.server.nextToken, w.db.instances) && Enabled(w, Write(c, tree))
    ensures Inv(Apply(w, Write(c, tree)))
  {
    NodeAt(w, c);
    var i := w.db.computes[c].instance;
    var v := Version(i, tree);
    PriorAppend(w.log, v, i + 1);
    Grow(w, c, w.nodes[c].(data := Whole(tree)), v);
  }

  lemma StartKeeps(w: World, c: nat, cmd: Command)
    requires Inv(w) && Fenced(w.db.server.nextToken, w.db.instances)
    requires c in w.nodes && w.nodes[c].inflight == Some(cmd) && cmd.kind == Start
    requires w.nodes[c].state.Some?
    ensures Tied(w.db, c) && cmd.instance == w.db.computes[c].instance
    ensures w.nodes[c].data == Whole(Prior(w.log, cmd.instance + 1)) && Prior(w.log, cmd.instance + 1) != Torn
    ensures var v := Version(cmd.instance, TreeOf(w.nodes[c].data));
            Inv(w.(nodes := w.nodes[c := Settle(w.nodes[c].(container := Up), Done(Start, true))], log := w.log + [v]))
  {
    NodeAt(w, c);
    var i := w.db.computes[c].instance;
    PriorComplete(|w.db.instances|, w.log, i + 1);
    var v := Version(i, TreeOf(w.nodes[c].data));
    PriorAppend(w.log, v, i + 1);
    Grow(w, c, Settle(w.nodes[c].(container := Up), Done(Start, true)), v);
  }

  // --------------------------------------------------- the repository grows

  lemma TreeAtGrows(a: Archive, repository: string, id: SnapshotId, t: Tree, at: string, x: Option<SnapshotId>)
    requires forall r :: r in a ==> r.1 != id
    requires TreeAt(a, at, x) != Torn
    ensures TreeAt(a[(repository, id) := t], at, x) == TreeAt(a, at, x)
  {}

  lemma LineageStored(n: nat, s: seq<Instance>, a: Archive, log: seq<Version>, f: Offers, key: (string, SnapshotId),
      t: Tree)
    requires Lineage(s, a, log, f) && LogOk(n, log)
    requires forall r :: r in a ==> r.1 != key.1
    ensures Lineage(s, a[key := t], log, f)
  {
    forall i | 0 <= i < |s| ensures InstanceOk(s[i], i, a[key := t], log, f) {
      assert InstanceOk(s[i], i, a, log, f);
      PriorComplete(n, log, i);
      TreeAtGrows(a, key.0, key.1, t, s[i].spec.data.repository, s[i].source);
    }
  }

  lemma OffersStored(s: seq<Instance>, a: Archive, log: seq<Version>, f: Offers, key: (string, SnapshotId), t: Tree)
    requires OffersOk(s, a, log, f)
    requires forall r :: r in a ==> r.1 != key.1
    ensures OffersOk(s, a[key := t], log, f)
  {
    forall o | o in f ensures OfferOk(s, a[key := t], log, o) {
      assert OfferOk(s, a, log, o);
    }
  }

  lemma StoreKeeps(w: World, key: (string, SnapshotId), t: Tree)
    requires Inv(w) && FreshId(w, key.1)
    ensures Inv(w.(restic := w.restic[key := t]))
  {
    LineageStored(|w.db.instances|, w.db.instances, w.restic, w.log, w.offered, key, t);
    OffersStored(w.db.instances, w.restic, w.log, w.offered, key, t);
  }

  // The agent records a snapshot of the final contents.
  lemma OfferRecorded(s: seq<Instance>, a: Archive, log: seq<Version>, f: Offers, o: (nat, SnapshotId))
    requires OffersOk(s, a, log, f) && OfferOk(s, a, log, o)
    requires forall p :: p in f ==> p.1 != o.1
    ensures OffersOk(s, a, log, f + {o})
  {}

  lemma LineageRecorded(s: seq<Instance>, a: Archive, log: seq<Version>, f: Offers, o: (nat, SnapshotId))
    requires Lineage(s, a, log, f)
    ensures Lineage(s, a, log, f + {o})
  {
    forall i | 0 <= i < |s| ensures InstanceOk(s[i], i, a, log, f + {o}) {
      assert InstanceOk(s[i], i, a, log, f);
    }
  }

  lemma NodesRecorded(w: World, c: nat, node: Node, id: SnapshotId)
    requires NodesOk(w.db.instances, w.db.computes, w.nodes, w.log, w.offered)
    requires ComputesTied(w.db.instances, w.db.computes)
    requires c in w.nodes && Tied(w.db, c)
    requires NodeOk(Row(w.db, c), w.db.computes[c].instance, node, w.log, w.offered + {(w.db.computes[c].instance, id)})
    ensures NodesOk(w.db.instances, w.db.computes, w.nodes[c := node], w.log,
                    w.offered + {(w.db.computes[c].instance, id)})
  {
    var f := w.offered + {(w.db.computes[c].instance, id)};
    forall d | d in w.nodes && d != c
      ensures Tied(w.db, d) && NodeOk(Row(w.db, d), w.db.computes[d].instance, w.nodes[d], w.log, f)
    {
      OfferedElsewhere(w.offered, (w.db.computes[c].instance, id), w.db.computes[d].instance);
    }
  }

  lemma OfferedElsewhere(f: Offers, o: (nat, SnapshotId), i: nat)
    requires i != o.0
    ensures Offered(f + {o}, i) == Offered(f, i)
  {}

  // What the agent leaves behind when it has recorded snapshot `id`.
  lemma RecordedNode(row: Instance, i: nat, node: Node, log: seq<Version>, f: Offers, id: SnapshotId)
    requires NodeOk(row, i, node, log, f) && node.state.Some? && node.container != Up
    ensures NodeOk(row, i, Settle(node.(state := Some(node.state.value.(last := Some(id)))), Taken(id)), log,
                   f + {(i, id)})
  {}

  lemma RecordKeeps(w: World, c: nat, id: SnapshotId)
    requires Inv(w) && c in w.nodes && Tied(w.db, c) && w.nodes[c].state.Some? && w.nodes[c].container != Up
    requires OfferOk(w.db.instances, w.restic, w.log, (w.db.computes[c].instance, id))
    requires forall p :: p in w.offered ==> p.1 != id
    ensures Inv(w.(nodes := w.nodes[c := Settle(
                     w.nodes[c].(state := Some(w.nodes[c].state.value.(last := Some(id)))), Taken(id))],
                   offered := w.offered + {(w.db.computes[c].instance, id)}))
  {
    var i, row, node := w.db.computes[c].instance, Row(w.db, c), w.nodes[c];
    OfferRecorded(w.db.instances, w.restic, w.log, w.offered, (i, id));
    LineageRecorded(w.db.instances, w.restic, w.log, w.offered, (i, id));
    RecordedNode(row, i, node, w.log, w.offered, id);
    NodesRecorded(w, c, Settle(node.(state := Some(node.state.value.(last := Some(id)))), Taken(id)), id);
  }

  lemma BackupKeeps(w: World, c: nat, cmd: Command, id: SnapshotId)
    requires Inv(w) && c in w.nodes && w.nodes[c].inflight == Some(cmd) && cmd.kind == Backup
    requires w.nodes[c].state.Some? && w.nodes[c].container != Up && FreshId(w, id)
    ensures Inv(Finished(w, c, w.nodes[c], cmd, id, true))
  {
    NodeAt(w, c);
    var i, node := w.db.computes[c].instance, w.nodes[c];
    var key := (cmd.repository, id);
    assert OfferOk(w.db.instances, w.restic[key := TreeOf(node.data)], w.log, (i, id));
    forall p | p in w.offered ensures p.1 != id {
      assert OfferOk(w.db.instances, w.restic, w.log, p);
    }
    StoreKeeps(w, key, TreeOf(node.data));
    RecordKeeps(w.(restic := w.restic[key := TreeOf(node.data)]), c, id);
  }

  lemma FinishedRestoreKeeps(w: World, c: nat, cmd: Command, id: SnapshotId, changed: bool)
    requires Inv(w) && c in w.nodes && w.nodes[c].inflight == Some(cmd)
        && MoveOk(w, w.nodes[c], cmd, Finish(id, changed)) && cmd.kind == Restore
    ensures Inv(Finished(w, c, w.nodes[c], cmd, id, changed))
  {
    if w.nodes[c].state.None? {
      FirstRestoreKeeps(w, c, cmd);
    } else {
      SameAgents(w, c, Settle(w.nodes[c], Done(Restore, false)));
      QuietPut(w, c, Settle(w.nodes[c], Done(Restore, false)), w.sessions);
    }
  }

  lemma FirstRestoreKeeps(w: World, c: nat, cmd: Command)
    requires Inv(w) && c in w.nodes && w.nodes[c].inflight == Some(cmd) && cmd.kind == Restore && w.nodes[c].state.None?
    ensures Inv(Finished(w, c, w.nodes[c], cmd, "", true))
  {
    NodeAt(w, c);
    FinishRestore(w, c, cmd);
    var node := Settle(w.nodes[c].(data := Whole(TreeAt(w.restic, cmd.repository, cmd.source)),
                                   state := Some(AgentState(cmd.instance, cmd.token, None))), Done(Restore, true));
    SameAgents(w, c, node);
    PutKeeps(w, c, node, w.sessions);
  }

  lemma FinishedStartKeeps(w: World, c: nat, cmd: Command, id: SnapshotId, changed: bool)
    requires Inv(w) && Fenced(w.db.server.nextToken, w.db.instances)
    requires c in w.nodes && w.nodes[c].inflight == Some(cmd) && MoveOk(w, w.nodes[c], cmd, Finish(id, changed))
        && cmd.kind == Start
    ensures Inv(Finished(w, c, w.nodes[c], cmd, id, changed))
  {
    if w.nodes[c].container == Up {
      RunningKeeps(w, c);
    } else {
      StartKeeps(w, c, cmd);
    }
  }

  lemma RunningKeeps(w: World, c: nat)
    requires Inv(w) && c in w.nodes
    ensures Inv(w.(nodes := w.nodes[c := Settle(w.nodes[c], Done(Start, false))]))
  {
    QuietPut(w, c, Settle(w.nodes[c], Done(Start, false)), w.sessions);
  }

  lemma FinishKeeps(w: World, c: nat, cmd: Command, id: SnapshotId, changed: bool)
    requires Inv(w) && Fenced(w.db.server.nextToken, w.db.instances)
    requires c in w.nodes && w.nodes[c].inflight == Some(cmd) && MoveOk(w, w.nodes[c], cmd, Finish(id, changed))
    ensures Inv(Finished(w, c, w.nodes[c], cmd, id, changed))
  {
    if cmd.kind == Restore {
      FinishedRestoreKeeps(w, c, cmd, id, changed);
    } else if cmd.kind == Start {
      FinishedStartKeeps(w, c, cmd, id, changed);
    } else if cmd.kind == Backup {
      BackupKeeps(w, c, cmd, id);
    } else {
      StopOrCleanupKeeps(w, c, cmd, id, changed);
    }
  }

  lemma StopOrCleanupKeeps(w: World, c: nat, cmd: Command, id: SnapshotId, changed: bool)
    requires Inv(w) && c in w.nodes && w.nodes[c].inflight == Some(cmd) && (cmd.kind == Stop || cmd.kind == Cleanup)
    ensures Inv(Finished(w, c, w.nodes[c], cmd, id, changed))
  {
    NodeAt(w, c);
    var node' := Finished(w, c, w.nodes[c], cmd, id, changed).nodes[c];
    FinishStopOrCleanup(Row(w.db, c), w.db.computes[c].instance, w.nodes[c], cmd, w, node');
    SameAgents(w, c, node');
    PutKeeps(w, c, node', w.sessions);
  }

  lemma LocalMoveKeeps(w: World, c: nat, cmd: Command, move: Move)
    requires Inv(w) && c in w.nodes && w.nodes[c].inflight == Some(cmd) && MoveOk(w, w.nodes[c], cmd, move)
    requires !move.Finish? && !move.Falter? && !move.Save?
    ensures Inv(Moved(w, c, move))
  {
    NodeAt(w, c);
    var node' := Moved(w, c, move).nodes[c];
    LocalMove(Row(w.db, c), w.db.computes[c].instance, w.nodes[c], cmd, move, w, node');
    SameAgents(w, c, node');
    PutKeeps(w, c, node', w.sessions);
  }

  lemma FalterKeeps(w: World, c: nat)
    requires Inv(w) && c in w.nodes && w.nodes[c].inflight.None?
    ensures Inv(Faltered(w, c))
  {
    var node := w.nodes[c].(reply := Some(Refused));
    SameAgents(w, c, node);
    QuietPut(w, c, node, w.sessions);
  }

  lemma AgentKeeps(w: World, c: nat, move: Move)
    requires Inv(w) && Fenced(w.db.server.nextToken, w.db.instances) && Enabled(w, Agent(c, move))
    ensures Inv(Moved(w, c, move))
  {
    var cmd := w.nodes[c].inflight.value;
    if move.Save? {
      StoreKeeps(w, (cmd.repository, move.id), TreeOf(w.nodes[c].data));
    } else if move.Finish? {
      FinishKeeps(w, c, cmd, move.snapshot, move.changed);
    } else if move.Falter? {
      FinishKeeps(w, c, cmd, move.snapshot, move.changed);
      FalterKeeps(Finished(w, c, w.nodes[c], cmd, move.snapshot, move.changed), c);
    } else {
      LocalMoveKeeps(w, c, cmd, move);
    }
  }

  /** Every event of every party keeps the invariant. */
  lemma StepKeeps(w: World, e: Event)
    requires Safe(w) && Enabled(w, e)
    ensures Safe(Apply(w, e))
  {
    if e.Sql? {
      ExecKeepsInv(w.db, e.st);
      SqlKeeps(w, e.st);
    } else {
      MachineKeeps(w, e);
    }
  }

  lemma MachineKeeps(w: World, e: Event)
    requires Inv(w) && Fenced(w.db.server.nextToken, w.db.instances) && Enabled(w, e) && !e.Sql?
    ensures Inv(Apply(w, e)) && Apply(w, e).db == w.db
  {
    if e.Agent? {
      AgentKeeps(w, e.c, e.move);
    } else if e.Send? {
      SendKeeps(w, e.c, e.kind);
    } else if e.Write? {
      WriteKeeps(w, e.c, e.tree);
    } else {
      OutsideKeeps(w, e);
    }
  }

  lemma OutsideKeeps(w: World, e: Event)
    requires Inv(w) && Enabled(w, e) && !e.Sql? && !e.Agent? && !e.Send? && !e.Write?
    ensures Inv(Apply(w, e))
  {
    match e
    case Provision(c, id) => ProvisionKeeps(w, c, id);
    case Disconnect(_, _) => DisconnectKeeps(w, e);
    case Lose(_) => VanishKeeps(w, e);
    case Destroy(_) => VanishKeeps(w, e);
    case AgentDown(c) => DownKeeps(w, c);
    case Register(c) => RegisterKeeps(w, c);
    case AgentUp(c) => UpKeeps(w, c);
    case Abort(c) => AbortKeeps(w, c);
    case Exit(c) => ExitKeeps(w, c);
  }
}
