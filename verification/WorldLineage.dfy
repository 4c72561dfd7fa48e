/** What the lifecycle promises over whole runs: the world is never lost, never
    forked and never silently rolled back. */
module WorldLineage {
  import opened Domain
  import opened Database
  import opened Lifecycle
  import opened Safety
  import History

  ghost predicate Initial(w: World) {
    History.Fresh(w.db) && w == World(w.db, map[], map[], map[], [], {})
  }

  // Any interleaving of any events, as long as each is possible when it happens.
  ghost predicate Run(ws: seq<World>, es: seq<Event>) {
    && |ws| == |es| + 1
    && Initial(ws[0])
    && forall k :: 0 <= k < |es| ==> StepAt(ws, es, k)
  }

  ghost predicate StepAt(ws: seq<World>, es: seq<Event>, k: nat)
    requires k < |es| < |ws|
  {
    Enabled(ws[k], es[k]) && ws[k + 1] == Apply(ws[k], es[k])
  }

  lemma {:induction false} RunIsSafe(ws: seq<World>, es: seq<Event>, k: nat)
    requires Run(ws, es) && k < |ws|
    ensures Safe(ws[k])
  {
    if k == 0 {
      InitialIsSafe(ws[0]);
    } else {
      RunIsSafe(ws, es, k - 1);
      assert StepAt(ws, es, k - 1);
      StepKeeps(ws[k - 1], es[k - 1]);
    }
  }

  lemma InitialIsSafe(w: World)
    requires Initial(w)
    ensures Safe(w)
  {}

  lemma RunExtends(ws: seq<World>, es: seq<Event>, e: Event)
    requires Run(ws, es) && Enabled(ws[|es|], e)
    ensures Run(ws + [Apply(ws[|es|], e)], es + [e])
  {
    var ws', es' := ws + [Apply(ws[|es|], e)], es + [e];
    forall k | 0 <= k < |es'| ensures StepAt(ws', es', k) {
      if k < |es| {
        assert StepAt(ws, es, k);
      }
    }
  }

  // -------------------------------------------------- the history, read plainly

  // The newest contents of all.
  function Latest(log: seq<Version>): Tree {
    if |log| == 0 then EmptyTree else log[|log| - 1].tree
  }

  // Entry `k` is the last one of the latest instance before `i` whose process ever started.
  ghost predicate LastBefore(log: seq<Version>, i: nat, k: nat) {
    && k < |log| && log[k].instance < i
    && forall m :: k < m < |log| ==> log[m].instance >= i
  }

  // `t` is what that instance finally left, or nothing if no process ever started before `i`.
  ghost predicate LeftBefore(log: seq<Version>, i: nat, t: Tree) {
    || (exists k: nat :: LastBefore(log, i, k) && log[k].tree == t)
    || ((forall j :: 0 <= j < i ==> !Started(log, j)) && t == EmptyTree)
  }

  // A later entry of a later instance changes nothing for `i`.
  lemma LeftBeforeMore(log: seq<Version>, v: Version, i: nat, t: Tree)
    requires LeftBefore(log, i, t) && v.instance >= i
    ensures LeftBefore(log + [v], i, t)
  {
    var more := log + [v];
    if k: nat :| LastBefore(log, i, k) && log[k].tree == t {
      assert LastBefore(more, i, k) && more[k].tree == t;
    } else {
      forall j | 0 <= j < i ensures !Started(more, j) {
        assert !Started(log, j);
      }
    }
  }

  lemma {:induction false} PriorIsLeft(log: seq<Version>, i: nat)
    ensures LeftBefore(log, i, Prior(log, i))
  {
    if |log| > 0 {
      var last := |log| - 1;
      if log[last].instance < i {
        assert LastBefore(log, i, last);
      } else {
        PriorIsLeft(log[..last], i);
        LeftBeforeMore(log[..last], log[last], i, Prior(log, i));
        assert log == log[..last] + [log[last]];
      }
    }
  }

  // In a history that is in instance order that entry belongs to the latest started instance below `i`.
  lemma LastBeforeIsLatest(n: nat, log: seq<Version>, i: nat, k: nat)
    requires LogOk(n, log) && LastBefore(log, i, k)
    ensures Started(log, log[k].instance)
    ensures forall j :: log[k].instance < j < i ==> !Started(log, j)
  {}

  lemma {:induction false} PriorOfAll(n: nat, log: seq<Version>)
    requires LogOk(n, log)
    ensures Prior(log, n) == Latest(log)
  {}

  // ---------------------------------------------------------------- theorems

  /** World lineage: whatever was restored for an instance that has not run yet
      is what the latest earlier instance whose process ever started left behind
      (an empty directory if there is none), and a running or stopped but
      unpublished instance still holds the newest contents of all. */
  lemma RestoredIsWhatWasLeft(ws: seq<World>, es: seq<Event>, k: nat, c: nat)
    requires Run(ws, es) && k < |ws| && c in ws[k].nodes && ws[k].nodes[c].state.Some?
    ensures Tied(ws[k].db, c)
    ensures var i := ws[k].db.computes[c].instance;
            Row(ws[k].db, c).result.None? ==>
              && ws[k].nodes[c].data.Whole?
              && LeftBefore(ws[k].log, i + 1, ws[k].nodes[c].data.tree)
              && (!Started(ws[k].log, i) ==> LeftBefore(ws[k].log, i, ws[k].nodes[c].data.tree))
  {
    RunIsSafe(ws, es, k);
    NodeAt(ws[k], c);
    if Row(ws[k].db, c).result.None? {
      HeldIsLeft(Row(ws[k].db, c), ws[k].db.computes[c].instance, ws[k].nodes[c], ws[k].log, ws[k].offered);
    }
  }

  lemma HeldIsLeft(row: Instance, i: nat, node: Node, log: seq<Version>, f: Offers)
    requires NodeOk(row, i, node, log, f) && node.state.Some? && row.result.None?
    ensures node.data.Whole? && LeftBefore(log, i + 1, node.data.tree)
    ensures !Started(log, i) ==> LeftBefore(log, i, node.data.tree)
  {
    PriorIsLeft(log, i + 1);
    if !Started(log, i) {
      UntouchedIsLeft(log, i);
    }
  }

  // An instance that has not started holds what was left before it.
  lemma UntouchedIsLeft(log: seq<Version>, i: nat)
    requires !Started(log, i)
    ensures LeftBefore(log, i, Prior(log, i + 1))
  {
    PriorSkip(log, i);
    PriorIsLeft(log, i);
  }

  // The machine an event of the process or of a starting process happens on.
  predicate TouchesWorld(w: World, e: Event) {
    || e.Write?
    || (&& e.Agent? && (e.move.Finish? || e.move.Falter?)
        && At(w.nodes, e.c).inflight.Some? && At(w.nodes, e.c).inflight.value.kind == Start)
  }

  /** One linear history: the contents only ever change by a process of the
      newest instance acting on the newest contents, and a process that starts
      finds exactly those. */
  lemma HistoryIsLinear(ws: seq<World>, es: seq<Event>, k: nat)
    requires Run(ws, es) && k < |es|
    ensures ws[k + 1].log != ws[k].log ==>
              && TouchesWorld(ws[k], es[k]) && es[k].c in ws[k].nodes && Tied(ws[k].db, es[k].c)
              && ws[k].db.computes[es[k].c].instance == |ws[k].db.instances| - 1
              && ws[k].nodes[es[k].c].data == Whole(Latest(ws[k].log))
              && ws[k + 1].log == ws[k].log
                  + [Version(|ws[k].db.instances| - 1, if es[k].Write? then es[k].tree else Latest(ws[k].log))]
  {
    RunIsSafe(ws, es, k);
    var w, e := ws[k], es[k];
    assert StepAt(ws, es, k);
    if Apply(w, e).log != w.log {
      GrowthIsOnNewest(w, e);
    }
  }

  lemma OnlyProcessesWrite(w: World, e: Event)
    requires Enabled(w, e) && Apply(w, e).log != w.log
    ensures TouchesWorld(w, e) && e.c in w.nodes
    ensures e.Write? ==> w.nodes[e.c].container == Up
    ensures e.Agent? ==>
        w.nodes[e.c].inflight.Some? && w.nodes[e.c].inflight.value.kind == Start && w.nodes[e.c].state.Some?
    ensures e.Agent? ==>
        Apply(w, e).log == w.log + [Version(w.nodes[e.c].inflight.value.instance, TreeOf(w.nodes[e.c].data))]
    ensures e.Write? && Tied(w.db, e.c) ==> Apply(w, e).log == w.log + [Version(w.db.computes[e.c].instance, e.tree)]
    ensures w.log < Apply(w, e).log && |Apply(w, e).log| == |w.log| + 1
  {}

  lemma GrowthIsOnNewest(w: World, e: Event)
    requires Inv(w) && Fenced(w.db.server.nextToken, w.db.instances) && Enabled(w, e)
    requires Apply(w, e).log != w.log
    ensures TouchesWorld(w, e) && e.c in w.nodes && Tied(w.db, e.c)
    ensures w.db.computes[e.c].instance == |w.db.instances| - 1
    ensures w.nodes[e.c].data == Whole(Latest(w.log))
    ensures Apply(w, e).log == w.log + [Version(|w.db.instances| - 1, if e.Write? then e.tree else Latest(w.log))]
  {
    OnlyProcessesWrite(w, e);
    assert TouchesWorld(w, e) && e.c in w.nodes;
    NewestHolds(w, e.c);
  }

  // A machine whose process runs or is being started is the newest instance's and holds the newest contents.
  lemma NewestHolds(w: World, c: nat)
    requires Inv(w) && Fenced(w.db.server.nextToken, w.db.instances) && c in w.nodes
    requires w.nodes[c].container == Up
             || (w.nodes[c].inflight.Some? && w.nodes[c].inflight.value.kind == Start && w.nodes[c].state.Some?)
    ensures Tied(w.db, c) && w.db.computes[c].instance == |w.db.instances| - 1
    ensures w.nodes[c].data == Whole(Latest(w.log))
    ensures w.nodes[c].inflight.Some? ==> w.nodes[c].inflight.value.instance == |w.db.instances| - 1
  {
    NodeAt(w, c);
    RunsLast(w, c);
    PriorOfAll(|w.db.instances|, w.log);
  }

  // What the reconciler may do that destroys contents of machine `c`.
  ghost predicate Discards(w: World, e: Event, c: nat) {
    || e == Destroy(c)
    || e == Send(c, Cleanup)
    || (e.Agent? && e.c == c && At(w.nodes, c).inflight.Some? && At(w.nodes, c).inflight.value.kind == Cleanup)
  }

  /** No unsaved write is discarded: whenever a cleanup is sent or carried out,
      or the machine is deleted, either no process of the instance ever started
      or its final contents are in its published snapshot. */
  lemma NothingUnsavedIsDiscarded(ws: seq<World>, es: seq<Event>, k: nat, c: nat)
    requires Run(ws, es) && k < |es| && Discards(ws[k], es[k], c)
    ensures c in ws[k].nodes && Tied(ws[k].db, c)
    ensures var w, i, row := ws[k], ws[k].db.computes[c].instance, Row(ws[k].db, c);
            || !Started(w.log, i)
            || (row.result.Some? && LeftBefore(w.log, i + 1, TreeAt(w.restic, row.spec.data.repository, row.result)))
  {
    DiscardIsSafe(ws, es, k, c);
    Disposable(ws, es, k, ws[k].db.computes[c].instance);
    PriorIsLeft(ws[k].log, ws[k].db.computes[c].instance + 1);
  }

  lemma DiscardIsSafe(ws: seq<World>, es: seq<Event>, k: nat, c: nat)
    requires Run(ws, es) && k < |es| && Discards(ws[k], es[k], c)
    ensures c in ws[k].nodes && Tied(ws[k].db, c) && Row(ws[k].db, c).SafeToDiscard()
  {
    RunIsSafe(ws, es, k);
    assert StepAt(ws, es, k);
    DiscardGuard(ws[k], es[k], c);
  }

  lemma DiscardGuard(w: World, e: Event, c: nat)
    requires NodesOk(w.db.instances, w.db.computes, w.nodes, w.log, w.offered)
        && ComputesTied(w.db.instances, w.db.computes)
    requires Enabled(w, e) && Discards(w, e, c)
    ensures c in w.nodes && Tied(w.db, c) && Row(w.db, c).SafeToDiscard()
  {
    NodeAt(w, c);
    assert ComputeOk(w.db.instances, w.db.computes[c]);
  }

  // Data that may be discarded was never run on, or its final state is published.
  lemma Disposable(ws: seq<World>, es: seq<Event>, k: nat, i: nat)
    requires Run(ws, es) && k < |ws| && i < |ws[k].db.instances| && ws[k].db.instances[i].SafeToDiscard()
    ensures var w, row := ws[k], ws[k].db.instances[i];
            !Started(w.log, i)
                || (row.result.Some? && TreeAt(w.restic, row.spec.data.repository, row.result) == Prior(w.log, i + 1))
  {
    RunIsSafe(ws, es, k);
    PublishedIsFinal(ws[k], i);
  }

  lemma PublishedIsFinal(w: World, i: nat)
    requires Lineage(w.db.instances, w.restic, w.log, w.offered) && OffersOk(w.db.instances, w.restic, w.log, w.offered)
    requires i < |w.db.instances| && w.db.instances[i].SafeToDiscard()
    ensures var row := w.db.instances[i];
            !Started(w.log, i)
                || (row.result.Some? && TreeAt(w.restic, row.spec.data.repository, row.result) == Prior(w.log, i + 1))
  {
    assert InstanceOk(w.db.instances[i], i, w.restic, w.log, w.offered);
    if w.db.instances[i].result.Some? {
      assert OfferOk(w.db.instances, w.restic, w.log, (i, w.db.instances[i].result.value));
    }
  }

  // The history grew, but not by anything of instance `i`.
  ghost predicate AddsNothing(log: seq<Version>, log': seq<Version>, i: nat) {
    log <= log' && forall m :: |log| <= m < |log'| ==> log'[m].instance != i
  }

  // Restic takes a snapshot for the command of machine `c`, recorded or not.
  ghost predicate TakesSnapshot(w: World, e: Event, c: nat) {
    && e.Agent? && e.c == c && c in w.nodes && w.nodes[c].inflight.Some? && w.nodes[c].inflight.value.kind == Backup
    && (e.move.Save? || e.move.Finish? || e.move.Falter?)
  }

  // Instance `i` has been asked to stop, and none of its machines runs or is about to.
  ghost predicate Down(w: World, i: nat) {
    && i < |w.db.instances| && w.db.instances[i].stopAt.Some?
    && forall c :: c in w.nodes && c < |w.db.computes| && w.db.computes[c].instance == i ==> Silent(w.nodes[c])
  }

  ghost predicate Silent(node: Node) {
    node.container != Up && (node.inflight.Some? ==> node.inflight.value.kind != Start)
  }

  /** No snapshot is taken while, or followed by, a process run of the same
      instance: when restic takes one, no process of the instance is running on
      any machine, and from then on the instance adds nothing to the history. */
  lemma NoRunAfterSnapshot(ws: seq<World>, es: seq<Event>, j: nat, k: nat, c: nat)
    requires Run(ws, es) && j < |es| && j <= k < |ws| && TakesSnapshot(ws[j], es[j], c)
    ensures Tied(ws[j].db, c)
    ensures var i := ws[j].db.computes[c].instance;
            Down(ws[j], i) && Down(ws[k], i) && AddsNothing(ws[j].log, ws[k].log, i)
  {
    SnapshotMeansDown(ws, es, j, c);
    StaysDown(ws, es, ws[j].db.computes[c].instance, j, k);
  }

  lemma SnapshotMeansDown(ws: seq<World>, es: seq<Event>, k: nat, c: nat)
    requires Run(ws, es) && k < |es| && TakesSnapshot(ws[k], es[k], c)
    ensures Tied(ws[k].db, c) && Down(ws[k], ws[k].db.computes[c].instance)
  {
    RunIsSafe(ws, es, k);
    assert StepAt(ws, es, k);
    BackupMeansDown(ws[k], c);
  }

  lemma BackupMeansDown(w: World, c: nat)
    requires NodesOk(w.db.instances, w.db.computes, w.nodes, w.log, w.offered)
        && ComputesTied(w.db.instances, w.db.computes)
    requires c in w.nodes && w.nodes[c].inflight.Some? && w.nodes[c].inflight.value.kind == Backup
        && w.nodes[c].container != Up
    ensures Tied(w.db, c) && Down(w, w.db.computes[c].instance)
  {
    NodeAt(w, c);
    var i := w.db.computes[c].instance;
    forall d | d in w.nodes && d < |w.db.computes| && w.db.computes[d].instance == i ensures d == c {}
  }

  lemma {:induction false} StaysDown(ws: seq<World>, es: seq<Event>, i: nat, j: nat, k: nat)
    requires Run(ws, es) && j <= k < |ws| && Down(ws[j], i)
    ensures Down(ws[k], i) && AddsNothing(ws[j].log, ws[k].log, i)
  {
    if j < k {
      StaysDown(ws, es, i, j, k - 1);
      DownNext(ws, es, k - 1, i);
    }
  }

  lemma DownNext(ws: seq<World>, es: seq<Event>, k: nat, i: nat)
    requires Run(ws, es) && k < |es| && Down(ws[k], i)
    ensures Down(ws[k + 1], i) && AddsNothing(ws[k].log, ws[k + 1].log, i)
  {
    RunIsSafe(ws, es, k);
    assert StepAt(ws, es, k);
    DownKeepsDown(ws[k], es[k], i);
    DownAddsNothing(ws[k], es[k], i);
  }

  lemma DownAddsNothing(w: World, e: Event, i: nat)
    requires NodesOk(w.db.instances, w.db.computes, w.nodes, w.log, w.offered)
    requires Enabled(w, e) && Down(w, i)
    ensures AddsNothing(w.log, Apply(w, e).log, i)
  {
    if Apply(w, e).log != w.log {
      OnlyProcessesWrite(w, e);
      NodeAt(w, e.c);
    }
  }

  lemma DownKeepsDown(w: World, e: Event, i: nat)
    requires NodesOk(w.db.instances, w.db.computes, w.nodes, w.log, w.offered) && DbInv(w.db)
    requires Enabled(w, e) && Down(w, i)
    ensures Down(Apply(w, e), i)
  {
    if e.Sql? {
      RowsStepForward(w, e);
      assert History.RowEvolves(w.db.instances[i], Apply(w, e).db.instances[i]);
      forall c | c in w.nodes && c < |Apply(w, e).db.computes| && Apply(w, e).db.computes[c].instance == i
        ensures Silent(w.nodes[c])
      {
        assert History.ComputeEvolves(w.db.computes[c], Apply(w, e).db.computes[c]);
      }
    } else {
      MachineStaysDown(w, e, i);
    }
  }

  lemma MachineStaysDown(w: World, e: Event, i: nat)
    requires Enabled(w, e) && !e.Sql? && Down(w, i)
    ensures Down(Apply(w, e), i)
  {
    if e.Agent? {
      MovedHere(w, e.c, e.move);
      if e.c < |w.db.computes| && w.db.computes[e.c].instance == i {
        MoveStaysSilent(w, e.c, e.move);
      }
    } else if e.Send? {
      SendStaysDown(w, e.c, e.kind, i);
    } else {
      OutsideStaysDown(w, e, i);
    }
  }

  lemma SendStaysDown(w: World, c: nat, kind: Kind, i: nat)
    requires Enabled(w, Send(c, kind)) && Down(w, i)
    ensures Down(Apply(w, Send(c, kind)), i)
  {}

  lemma OutsideStaysDown(w: World, e: Event, i: nat)
    requires Enabled(w, e) && !e.Sql? && !e.Agent? && !e.Send? && Down(w, i)
    ensures Down(Apply(w, e), i)
  {
    var w' := Apply(w, e);
    forall c | c in w'.nodes && c < |w'.db.computes| && w'.db.computes[c].instance == i ensures Silent(w'.nodes[c]) {
      assert c in w.nodes ==> Silent(w.nodes[c]);
    }
  }

  lemma MoveStaysSilent(w: World, c: nat, move: Move)
    requires c in w.nodes && w.nodes[c].inflight.Some? && Silent(w.nodes[c])
    requires MoveOk(w, w.nodes[c], w.nodes[c].inflight.value, move)
    ensures c in Moved(w, c, move).nodes && Silent(Moved(w, c, move).nodes[c])
  {}

  // Terminated computes have no machine, except one the record does not lead to.
  ghost predicate Cleared(w: World) {
    forall c :: c in w.nodes && c < |w.db.computes| && !w.db.computes[c].Active() ==> StrayNode(w, c)
  }

  lemma ClearedNext(w: World, e: Event)
    requires Cleared(w) && Enabled(w, e) && NodesOk(w.db.instances, w.db.computes, w.nodes, w.log, w.offered)
    ensures Cleared(Apply(w, e))
  {
    if e.Sql? {
      forall c | c in w.nodes ensures c < |w.db.computes| && RecordKept(w, e.st, c) {
        RecordKeeps(w, e.st, c);
      }
    } else if e.Agent? {
      MovedHere(w, e.c, e.move);
    }
  }

  // A statement terminates a compute only when no machine is left that its record leads to.
  ghost predicate RecordKept(w: World, st: Statement, c: nat)
    requires c < |w.db.computes|
  {
    var after := Exec(w.db, st).computes;
    && c < |after| && after[c].provider == w.db.computes[c].provider
    && (!after[c].Active() ==> after[c].machine == w.db.computes[c].machine)
    && (!after[c].Active() && w.db.computes[c].Active() ==> !Leaves(w, c))
  }

  lemma RecordKeeps(w: World, st: Statement, c: nat)
    requires MayExecute(w, st) && c < |w.db.computes|
    ensures RecordKept(w, st, c)
  {}

  /** A terminated compute has no machine, except a VM under its label that the record does not
      lead to. */
  lemma {:induction false} TerminatedMeansGone(ws: seq<World>, es: seq<Event>, k: nat)
    requires Run(ws, es) && k < |ws|
    ensures Cleared(ws[k])
  {
    if k > 0 {
      TerminatedMeansGone(ws, es, k - 1);
      RunIsSafe(ws, es, k - 1);
      assert StepAt(ws, es, k - 1);
      ClearedNext(ws[k - 1], es[k - 1]);
    }
  }

  /** So when no instance is active, no machine is left but such VMs. */
  lemma NothingLeftRunning(ws: seq<World>, es: seq<Event>, k: nat, c: nat)
    requires Run(ws, es) && k < |ws| && !HasActive(ws[k].db.instances) && c in ws[k].nodes
    ensures StrayNode(ws[k], c)
  {
    TerminatedMeansGone(ws, es, k);
    RunIsSafe(ws, es, k);
    assert ComputeOk(ws[k].db.instances, ws[k].db.computes[c]);
  }

  /** In particular: once an agent has recorded a snapshot of an instance, no process of it is
      running, and none ever adds to the history again. */
  lemma NoRunOnceRecorded(ws: seq<World>, es: seq<Event>, i: nat, j: nat, k: nat)
    requires Run(ws, es) && j <= k < |ws| && Offered(ws[j].offered, i)
    ensures Down(ws[k], i) && AddsNothing(ws[j].log, ws[k].log, i)
  {
    RunIsSafe(ws, es, j);
    RecordedMeansDown(ws[j], i);
    StaysDown(ws, es, i, j, k);
  }

  lemma RecordedMeansDown(w: World, i: nat)
    requires NodesOk(w.db.instances, w.db.computes, w.nodes, w.log, w.offered)
    requires OffersOk(w.db.instances, w.restic, w.log, w.offered) && Offered(w.offered, i)
    ensures Down(w, i)
  {
    var o :| o in w.offered && o.0 == i;
    assert OfferOk(w.db.instances, w.restic, w.log, o);
    forall c | c in w.nodes && c < |w.db.computes| && w.db.computes[c].instance == i ensures Silent(w.nodes[c]) {
      NodeAt(w, c);
    }
  }

  /** Safe completion: an instance that is over either never had prepared data
      or published it, and no instance ever gets a second compute record. */
  lemma CompletionIsSafe(ws: seq<World>, es: seq<Event>, k: nat)
    requires Run(ws, es) && k < |ws|
    ensures forall i :: 0 <= i < |ws[k].db.instances| && !ws[k].db.instances[i].Active() ==>
              ws[k].db.instances[i].preparedAt.None? || ws[k].db.instances[i].result.Some?
    ensures forall c, d ::
        0 <= c < d < |ws[k].db.computes| ==> ws[k].db.computes[c].instance != ws[k].db.computes[d].instance
  {
    RunIsSafe(ws, es, k);
    forall i | 0 <= i < |ws[k].db.instances| && !ws[k].db.instances[i].Active()
      ensures ws[k].db.instances[i].preparedAt.None? || ws[k].db.instances[i].result.Some?
    {
      assert InstanceOk(ws[k].db.instances[i], i, ws[k].restic, ws[k].log, ws[k].offered);
    }
  }

  // Over a run of the whole system, too, rows only ever move forward.
  lemma {:induction false} RowsMoveForward(ws: seq<World>, es: seq<Event>, j: nat, k: nat)
    requires Run(ws, es) && j <= k < |ws|
    ensures History.Evolves(ws[j].db, ws[k].db)
  {
    if j == k {
      RowsStay(ws, es, j);
    } else {
      RowsMoveForward(ws, es, j, k - 1);
      RowsMoveOn(ws, es, k - 1);
      History.EvolvesTransitive(ws[j].db, ws[k - 1].db, ws[k].db);
    }
  }

  lemma RowsStay(ws: seq<World>, es: seq<Event>, k: nat)
    requires Run(ws, es) && k < |ws|
    ensures History.Evolves(ws[k].db, ws[k].db)
  {
    RunIsSafe(ws, es, k);
    History.EvolvesReflexive(ws[k].db);
  }

  lemma RowsMoveOn(ws: seq<World>, es: seq<Event>, k: nat)
    requires Run(ws, es) && k < |es|
    ensures History.Evolves(ws[k].db, ws[k + 1].db)
  {
    RunIsSafe(ws, es, k);
    assert StepAt(ws, es, k);
    RowsStepForward(ws[k], es[k]);
  }

  lemma RowsStepForward(w: World, e: Event)
    requires DbInv(w.db) && Enabled(w, e)
    ensures History.Evolves(w.db, Apply(w, e).db)
  {
    if e.Sql? {
      History.StepEvolves(w.db, e.st);
    } else {
      RowsUntouched(w, e);
      History.EvolvesReflexive(w.db);
    }
  }

  lemma RowsUntouched(w: World, e: Event)
    requires Enabled(w, e) && !e.Sql?
    ensures Apply(w, e).db == w.db
  {}

  /** A compute is a VM exactly if its instance's spec asks for one, and no two computes ever
      belong to one instance. */
  lemma ComputeIsAsSpecified(ws: seq<World>, es: seq<Event>, k: nat, c: nat)
    requires Run(ws, es) && k < |ws| && c < |ws[k].db.computes|
    ensures Tied(ws[k].db, c)
    ensures ws[k].db.computes[c].provider == AkamaiVm <==> Row(ws[k].db, c).spec.compute.Akamai?
    ensures forall d :: 0 <= d < |ws[k].db.computes| && d != c ==>
              ws[k].db.computes[d].instance != ws[k].db.computes[c].instance
  {
    RunIsSafe(ws, es, k);
    assert ComputeOk(ws[k].db.instances, ws[k].db.computes[c]);
  }

  // The machine of compute `c` starts over: with restored data, or as a new VM.
  predicate StartsOver(w: World, e: Event, c: nat) {
    e == Send(c, Restore) || (e.Provision? && e.c == c && c < |w.db.computes| && w.db.computes[c].provider == AkamaiVm)
  }

  /** Once data is on record as prepared, the instance never gets restored data
      or an empty replacement VM again; once a shutdown is on record, its compute
      never gets a machine again; and a start is sent only after `prepared` is on
      record. */
  lemma NoStartingOver(ws: seq<World>, es: seq<Event>, j: nat, k: nat, c: nat)
    requires Run(ws, es) && j <= k < |es| && Tied(ws[j].db, c)
    ensures Row(ws[j].db, c).preparedAt.Some? ==> !StartsOver(ws[k], es[k], c)
    ensures ws[j].db.computes[c].shutdownAt.Some? ==> !(es[k].Provision? && es[k].c == c)
    ensures es[k] == Send(c, Start) ==> Tied(ws[k].db, c) && Row(ws[k].db, c).preparedAt.Some?
  {
    RowsMoveForward(ws, es, j, k);
    assert StepAt(ws, es, k);
    assert History.ComputeEvolves(ws[j].db.computes[c], ws[k].db.computes[c]);
    assert History.RowEvolves(Row(ws[j].db, c), Row(ws[k].db, c));
  }

  /** The single worker never meets a conflict: whatever snapshot an agent has
      recorded for the unpublished active instance, committing it publishes it. */
  lemma CommitNeverConflicts(ws: seq<World>, es: seq<Event>, k: nat, i: nat, id: SnapshotId)
    requires Run(ws, es) && k < |ws| && (i, id) in ws[k].offered
    requires i < |ws[k].db.instances| && ws[k].db.instances[i].Active() && ws[k].db.instances[i].result.None?
    ensures Outcome(ws[k].db, i, ws[k].db.instances[i].token, id) == Published
  {
    RunIsSafe(ws, es, k);
    var w := ws[k];
    assert OfferOk(w.db.instances, w.restic, w.log, (i, id));
    forall m | 0 <= m < |w.db.snapshots|
        ensures w.db.snapshots[m].id != id && w.db.snapshots[m].token != w.db.instances[i].token {
      NotListedYet(w, i, id, m);
    }
  }

  lemma NotListedYet(w: World, i: nat, id: SnapshotId, m: nat)
    requires Listed(w.db.snapshots, w.db.instances) && Fenced(w.db.server.nextToken, w.db.instances)
    requires Lineage(w.db.instances, w.restic, w.log, w.offered) && OffersOk(w.db.instances, w.restic, w.log, w.offered)
    requires (i, id) in w.offered && i < |w.db.instances| && w.db.instances[i].result.None? && m < |w.db.snapshots|
    ensures w.db.snapshots[m].id != id && w.db.snapshots[m].token != w.db.instances[i].token
  {
    var s := w.db.snapshots[m];
    assert ListedOnce(s, w.db.instances);
    assert InstanceOk(w.db.instances[s.instance], s.instance, w.restic, w.log, w.offered);
    assert (s.instance, s.id) in w.offered;
    assert s.instance != i;
  }
}
