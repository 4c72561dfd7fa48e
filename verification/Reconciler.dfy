/** The reconciler: the worker that drives one server towards its desired state.

    Every method runs against interference. Between any two accesses to the
    database, an agent or a provider, other parties may take any steps they can
    take, and any access may fail or lose its answer. With `calm` set, nothing
    fails and nobody else acts; that is the setting in which the reconciler has
    to arrive. */
module Reconciler {
  import opened Domain
  import opened Database
  import opened Lifecycle
  import opened WorldLineage
  import opened Interference
  import opened Convergence
  import opened Steps

  /** The control plane and everything it talks to. `ws` and `es` record the run. */
  class Plane {
    var db: Db
    var nodes: map<nat, Node>
    var sessions: map<nat, Session>
    var restic: map<(string, SnapshotId), Tree>
    var log: seq<Version>
    var offered: set<(nat, SnapshotId)>
    const maxLifetime: nat
    ghost var ws: seq<World>
    ghost var es: seq<Event>
    // Where in `es` others acted.
    ghost var others: set<nat>

    function View(): World
      reads this
    {
      World(db, nodes, sessions, restic, log, offered)
    }

    // Everything that has happened is a run of the transition system, and the only edits of the
    // server row that are not other people's are stops of servers past their lifetime.
    ghost predicate Valid()
      reads this
    {
      Run(ws, es) && ws[|es|] == View() && EditsOnlyOverdue(ws, es, others, maxLifetime)
    }

    constructor (db0: Db, lifetime: nat)
      requires Initial(World(db0, map[], map[], map[], [], {}))
      ensures Valid() && View() == World(db0, map[], map[], map[], [], {})
    {
      db, nodes, sessions, restic, log, offered := db0, map[], map[], map[], [], {};
      maxLifetime := lifetime;
      ws, es, others := [World(db0, map[], map[], map[], [], {})], [], {};
    }

    lemma ValidIsSafe()
      requires Valid()
      ensures Safe(View())
    {
      RunIsSafe(ws, es, |es|);
    }

    // One step of the system.
    method Do(e: Event)
      requires Valid() && Enabled(View(), e)
      requires e.Sql? && IsEdit(e.st) ==> Overdue(View(), e.st, maxLifetime)
      modifies this
      ensures Valid() && View() == Apply(old(View()), e) && es == old(es) + [e] && others == old(others)
    {
      EditsExtend(ws, es, others, maxLifetime, e);
      Happen(e);
    }

    // One step of someone else.
    method Other(e: Event)
      requires Valid() && Enabled(View(), e)
      modifies this
      ensures Valid() && View() == Apply(old(View()), e)
      ensures es == old(es) + [e] && others == old(others) + {|old(es)|}
    {
      EditsAmong(ws, es, others, maxLifetime, e);
      others := others + {|es|};
      Happen(e);
    }

    method Happen(e: Event)
      requires Run(ws, es) && ws[|es|] == View() && Enabled(View(), e)
      modifies this
      ensures ws == old(ws) + [View()] && es == old(es) + [e] && others == old(others)
      ensures Run(ws, es) && ws[|es|] == View() && View() == Apply(old(View()), e)
    {
      RunExtends(ws, es, e);
      var w := Apply(View(), e);
      db, nodes, sessions, restic, log, offered := w.db, w.nodes, w.sessions, w.restic, w.log, w.offered;
      ws, es := ws + [w], es + [e];
    }

    // Only others have acted since `es` was `before`.
    ghost predicate OthersSince(before: seq<Event>, them: set<nat>)
      reads this
    {
      before <= es && them <= others && forall k :: |before| <= k < |es| ==> k in others
    }

    // Someone else takes a step, and the worker's footing holds.
    method Suffer(e: Event, ghost base: World)
      requires Valid() && Rely(base, View()) && Enabled(View(), e) && !ByWorker(e)
      modifies this
      ensures Valid() && Rely(base, View()) && OthersSince(old(es), old(others))
    {
      StillRely(e, base);
      Other(e);
    }

    lemma StillRely(e: Event, base: World)
      requires Valid() && Rely(base, View()) && Enabled(View(), e) && !ByWorker(e)
      ensures Rely(base, Apply(View(), e))
    {
      ValidIsSafe();
      StepRely(base, View(), e);
    }

    // Others act while the worker waits. `base` is where the worker last looked.
    method Pause(calm: bool, ghost base: World)
      requires Valid() && Rely(base, View())
      modifies this
      ensures Valid() && Rely(base, View()) && OthersSince(old(es), old(others))
      ensures calm ==> View() == old(View())
    {
      if !calm {
        var n: nat :| true;
        while n > 0
          invariant Valid() && Rely(base, View()) && OthersSince(old(es), old(others))
        {
          var e: Event := *;
          if Enabled(View(), e) && !ByWorker(e) {
            Suffer(e, base);
          }
          n := n - 1;
        }
      }
    }

    // One statement, or one transaction.
    method Execute(st: Statement)
      requires Valid() && Admissible(db, st) && MayExecute(View(), st)
      requires IsEdit(st) ==> Overdue(View(), st, maxLifetime)
      modifies this
      ensures Valid() && View() == old(View()).(db := Exec(old(db), st))
    {
      Do(Sql(st));
    }

    // The agent replaces a stale container by a new one.
    method Recreate(i: nat, c: nat)
      requires Valid() && Holds(db, i, c) && Intact(View(), i, c) && nodes[c].state.Some? && nodes[c].container != Up
      requires nodes[c].inflight == Some(CommandFor(Start, i, db.instances[i]))
      modifies this
      ensures Valid() && View() == old(View()).(nodes := old(nodes)[c := old(nodes)[c].(container := Exited)])
    {
      Do(Agent(c, Drop));
      Do(Agent(c, Make));
    }

    // The agent executes its command at once and answers.
    method Serve(i: nat, c: nat, kind: Kind, id: SnapshotId)
      requires Valid() && Holds(db, i, c) && c in nodes && Ready(nodes[c], kind)
      requires nodes[c].inflight == Some(CommandFor(kind, i, db.instances[i]))
      requires kind == Backup ==> FreshId(View(), id)
      modifies this
      ensures Valid() && Answered(old(View()), View(), c, kind, id)
    {
      Found(i, c);
      if kind == Start && nodes[c].container != Up {
        Recreate(i, c);
      }
      FinishAnswers(View(), i, c, kind, id);
      Do(Agent(c, Finish(id, HasStorage(nodes[c]))));
    }

    lemma Found(i: nat, c: nat)
      requires Valid() && Holds(db, i, c) && c in nodes
      ensures Intact(View(), i, c)
    {
      ValidIsSafe();
      SourceStored(View(), i);
      MachineFacts(View(), i, c);
    }

    lemma Here()
      requires Valid()
      ensures Rely(View(), View())
    {
      ValidIsSafe();
      RelyStays(View());
    }

    // The session hands the command to the agent.
    method Transmit(i: nat, c: nat, kind: Kind)
      requires Valid() && Holds(db, i, c) && RowAllows(db.instances[i], kind) && Connected(View(), c)
      requires kind == Cleanup ==> db.instances[i].result.Some? || Unprepared(View(), c)
      modifies this
      ensures Valid() && nodes.Keys == old(nodes.Keys)
      ensures View() ==
          old(View()).(nodes := old(nodes)[c := old(nodes)[c].(
              inflight := Some(CommandFor(kind, i, old(db).instances[i])), reply := None)])
    {
      Do(Send(c, kind));
    }

    // Wait for the answer. An error from the agent leaves the session as it is; without any
    // answer, or with one to something else, the session is over.
    method Receive(i: nat, c: nat, kind: Kind) returns (r: Option<Reply>)
      requires Valid() && Holds(db, i, c)
      modifies this
      ensures Valid() && Steady(old(View()), View())
      ensures r.Some? ==> Answers(kind, r.value) && Idle(View(), c) && c in nodes && nodes[c].reply == r
      ensures r.Some? && kind == Restore ==> Prepared(View(), c)
      ensures r.Some? && kind == Backup ==> (i, r.value.id) in offered
      ensures r.Some? <==> c in nodes && nodes[c].reply.Some? && Answers(kind, nodes[c].reply.value)
      ensures var kept := c in nodes && (r.Some? || nodes[c].reply == Some(Refused));
              if kept then OthersSince(old(es), old(others)) else c !in sessions
    {
      Here();
      Pause(false, View());
      r := None;
      if c in nodes && nodes[c].reply.Some? && Answers(kind, nodes[c].reply.value) {
        Found(i, c);
        r := nodes[c].reply;
      } else if !(c in nodes && nodes[c].reply == Some(Refused)) {
        Do(Disconnect(c, false));
      }
    }

    // The answer to the command just sent.
    method Await(i: nat, c: nat, kind: Kind, id: SnapshotId, calm: bool) returns (r: Option<Reply>)
      requires Valid() && Holds(db, i, c)
      requires calm ==> c in nodes && Ready(nodes[c], kind) && (kind == Backup ==> FreshId(View(), id))
      requires calm ==> nodes[c].inflight == Some(CommandFor(kind, i, db.instances[i]))
      modifies this
      ensures Valid() && Steady(old(View()), View())
      ensures r.Some? ==> Answers(kind, r.value) && Idle(View(), c) && c in nodes && nodes[c].reply == r
      ensures r.Some? && kind == Restore ==> Prepared(View(), c)
      ensures r.Some? && kind == Backup ==> (i, r.value.id) in offered
      ensures calm ==> r.Some? && Answered(old(View()), View(), c, kind, id) && r == nodes[c].reply
    {
      if calm {
        Here();
        Serve(i, c, kind, id);
        r := nodes[c].reply;
        Found(i, c);
      } else {
        r := Receive(i, c, kind);
      }
    }

    /** One command to the agent of compute `c`. The answer can be lost after the
        command took effect, and the command can take effect after the answer was
        given up on. */
    method Call(i: nat, c: nat, kind: Kind, id: SnapshotId, calm: bool) returns (r: Option<Reply>)
      requires Valid() && Holds(db, i, c) && RowAllows(db.instances[i], kind)
      requires kind == Cleanup ==> db.instances[i].result.Some? || Unprepared(View(), c)
      requires calm ==> Connected(View(), c) && Ready(nodes[c], kind) && (kind == Backup ==> FreshId(View(), id))
      modifies this
      ensures Valid() && Steady(old(View()), View())
      ensures r.Some? ==> Answers(kind, r.value) && Idle(View(), c) && c in nodes && nodes[c].reply == r
      ensures r.Some? && kind == Restore ==> Prepared(View(), c)
      ensures r.Some? && kind == Backup ==> (i, r.value.id) in offered
      ensures calm ==> r.Some? && Answered(old(View()), View(), c, kind, id) && r == nodes[c].reply
    {
      Here();
      ghost var start := View();
      Pause(calm, start);
      r := None;
      if Connected(View(), c) {
        Transmit(i, c, kind);
        ghost var sent := View();
        r := Await(i, c, kind, id, calm);
        SteadyChains(start, sent, View());
      }
    }

    // A compute row for instance `i`, which has none.
    method Enlist(i: nat) returns (c: nat)
      requires Valid() && i < |db.instances| && db.instances[i].Active() && db.instances[i].stopAt.None?
      requires ComputeOf(db.computes, i).None?
      modifies this
      ensures Valid() && c == |old(db.computes)| && |db.computes| == c + 1 && Holds(db, i, c)
      ensures View() == old(View()).(db := old(db).(computes := old(db.computes) + [db.computes[c]]))
      ensures db.computes[c].shutdownAt.None?
      ensures db.computes[c].provider == ProviderOf(db.instances[i].spec.compute)
    {
      var now: nat :| true;
      Execute(CreateCompute(i, ProviderOf(db.instances[i].spec.compute), now));
      return |db.computes| - 1;
    }

    // The compute row of instance `i`, created if there is none.
    method Acquire(i: nat, calm: bool) returns (r: Result<(nat, bool), Failure>)
      requires Valid() && i < |db.instances| && db.instances[i].Active()
      requires db.instances[i].stopAt.None? || ComputeOf(db.computes, i).Some?
      modifies this
      ensures Valid() && Onward(old(View()), View())
      ensures r.Ok? ==> Holds(db, i, r.value.0)
      ensures r.Ok? ==> db.computes[r.value.0].provider == ProviderOf(db.instances[i].spec.compute)
      ensures r.Ok? && !r.value.1 ==> SameComputes(old(db.computes), db.computes)
      ensures r.Ok? && r.value.1 ==> db.computes[r.value.0].shutdownAt.None?
      ensures calm ==> r.Ok?
      ensures calm && r.Ok? && !r.value.1 ==> View() == old(View()) && ComputeOf(db.computes, i) == Some(r.value.0)
      ensures calm && r.Ok? && r.value.1 ==> old(ComputeOf(db.computes, i)).None? && r.value.0 == |old(db.computes)|
      ensures calm && r.Ok? && r.value.1 ==> |db.computes| == |old(db.computes)| + 1
      ensures calm && r.Ok? && r.value.1 ==>
          View() == old(View()).(db := old(db).(computes := old(db.computes) + [db.computes[r.value.0]]))
    {
      Here();
      ghost var start := View();
      Pause(calm, start);
      var failed := Fails(calm);
      if failed {
        return Err(Unavailable);
      }
      var found := ComputeOf(db.computes, i);
      if found.Some? {
        RightProvider(found.value);
        var right := db.computes[found.value].provider == ProviderOf(db.instances[i].spec.compute);
        return if right then Ok((found.value, false)) else Err(WrongProvider);
      }
      NoneFound(start, View(), i);
      var c := Enlist(i);
      return Ok((c, true));
    }

    // The machine behind the row: found, or created unless prepared data would be on the old one.
    method Procure(i: nat, c: nat, calm: bool) returns (r: Result<bool, Failure>)
      requires Valid() && Holds(db, i, c) && db.computes[c].shutdownAt.None?
      modifies this
      ensures Valid() && Steady(old(View()), View())
      ensures r.Ok? ==> c in nodes
      ensures calm && r.Err? ==>
          r.error == MachineLost && View() == old(View()) && c !in nodes && db.instances[i].preparedAt.Some?
      ensures calm && r.Ok? ==> nodes == old(nodes)[c := nodes[c]] && View() == old(View()).(nodes := nodes)
      ensures calm && r.Ok? && !r.value ==> View() == old(View())
      ensures calm && r.Ok? && r.value && c in old(nodes) ==>
          !old(nodes)[c].agentUp && nodes[c] == old(nodes)[c].(agentUp := true)
      ensures calm && r.Ok? && c !in old(nodes) ==> r.value && nodes[c] == BARE.(id := nodes[c].id)
      ensures calm ==> (r.Err? <==> c !in old(nodes) && Irreplaceable(db, i, c))
      ensures calm && r.Ok? && c in old(nodes) ==> (r.value <==> Asleep(old(View()), c))
    {
      Here();
      Pause(calm, View());
      var failed := Fails(calm);
      if failed {
        return Err(Unavailable);
      }
      var local := db.computes[c].provider == LocalProcess;
      if c !in nodes {
        if !local && db.instances[i].preparedAt.Some? {
          return Err(MachineLost);
        }
        var id: nat :| true;
        Do(Provision(c, id));
        return Ok(true);
      }
      if local && !nodes[c].agentUp {
        Do(AgentUp(c));
        return Ok(true);
      }
      return Ok(false);
    }

    // The machine, recorded in its row.
    method Realize(i: nat, c: nat, calm: bool) returns (r: Result<bool, Failure>)
      requires Valid() && Holds(db, i, c) && db.computes[c].shutdownAt.None?
      modifies this
      ensures Valid() && Onward(old(View()), View()) && Holds(db, i, c) && db.computes[c].shutdownAt.None?
      ensures calm && r.Err? ==>
          r.error == MachineLost && View() == old(View()) && c !in nodes && db.instances[i].preparedAt.Some?
      ensures calm && r.Ok? ==> Provided(old(View()), View(), c)
      ensures calm && r.Ok? && !r.value ==> View() == old(View())
      ensures calm && r.Ok? && r.value && c in old(nodes) ==>
        old(db.computes)[c].machine != Some(old(nodes)[c].id) || old(nodes)[c].agentUp != nodes[c].agentUp
      ensures calm ==> (r.Err? <==> c !in old(nodes) && Irreplaceable(db, i, c))
      ensures calm && r.Ok? && c in old(nodes) && !r.value ==>
          old(db.computes)[c].machine == Some(old(nodes)[c].id) && !Asleep(old(View()), c)
      ensures calm && r.Ok? && r.value && c in old(nodes) ==>
          old(db.computes)[c].machine != Some(old(nodes)[c].id) || Asleep(old(View()), c)
    {
      r := Procure(i, c, calm);
      if r.Err? {
        return;
      }
      var id := nodes[c].id;
      Here();
      Pause(calm, View());
      var failed := Fails(calm);
      if failed {
        return Err(Unavailable);
      }
      if db.computes[c].machine != Some(id) {
        var now: nat :| true;
        Execute(RecordMachine(c, id, now));
        return Ok(true);
      }
    }

    /** `ensure_for_instance`: the compute row and its machine, and whether anything changed. */
    method Ensure(i: nat, calm: bool) returns (r: Result<(nat, bool), Failure>)
      requires Valid() && i < |db.instances| && db.instances[i].Active()
      requires db.instances[i].stopAt.None? || ComputeOf(db.computes, i).Some?
      requires NotShutDown(db.computes, i)
      modifies this
      ensures Valid() && Onward(old(View()), View())
      ensures r.Ok? ==> Holds(db, i, r.value.0) && db.computes[r.value.0].shutdownAt.None?
      ensures calm && r.Err? ==> Unobtainable(FocusOf(View())) && FocusOf(View()).node == old(FocusOf(View())).node
      ensures calm && r.Err? ==> r.error == MachineLost
      ensures calm ==> restic == old(restic)
      ensures calm && r.Ok? && !r.value.1 ==> View() == old(View()) && r.value.0 in nodes
      ensures calm && r.Ok? && !r.value.1 ==> db.computes[r.value.0].machine == Some(nodes[r.value.0].id)
      ensures calm && r.Ok? && r.value.1 ==> EnsuredFocus(old(FocusOf(View())), FocusOf(View()))
      ensures calm && r.Ok? && old(Quiet(View())) ==> Quiet(View())
      ensures calm && r.Ok? ==> (r.value.1 <==> Lacking(old(FocusOf(View()))))
      ensures calm ==> (r.Err? <==> Unobtainable(old(FocusOf(View()))))
      ensures calm ==> db.server == old(db.server)
    {
      Overview(i);
      Rowed();
      var a := Acquire(i, calm);
      if a.Err? {
        return Err(a.error);
      }
      var c := a.value.0;
      var b := Realize(i, c, calm);
      if b.Err? {
        Focused(i, c);
        return Err(b.error);
      }
      Focused(i, c);
      return Ok((c, a.value.1 || b.value));
    }

    // Every machine has its row.
    lemma Rowed()
      requires Valid()
      ensures forall c :: c in nodes ==> c < |db.computes|
    {
      ValidIsSafe();
    }

    // `agent.inspect`: a look at the machine between two commands.
    method Inspect(i: nat, c: nat, calm: bool) returns (r: Option<Report>)
      requires Valid() && Holds(db, i, c)
      requires calm ==> Connected(View(), c)
      modifies this
      ensures Valid() && Rely(old(View()), View())
      ensures r.Some? ==> Reported(View(), i, c, r.value)
      ensures calm ==> View() == old(View()) && r == Some(ReportOf(nodes[c]))
    {
      Here();
      ghost var start := View();
      Pause(calm, start);
      r := None;
      if Connected(View(), c) {
        Found(i, c);
        r := Some(ReportOf(nodes[c]));
        ghost var seen := View();
        Here();
        Pause(calm, seen);
        RelyChains(start, seen, View());
        var lost := Fails(calm);
        if lost {
          r := None;
          Do(Disconnect(c, false));
        }
      }
    }

    // `mark_data_prepared`
    method Mark(i: nat, c: nat, calm: bool) returns (ok: bool)
      requires Valid() && Holds(db, i, c) && db.computes[c].shutdownAt.None? && Prepared(View(), c)
      modifies this
      ensures Valid() && (calm ==> ok)
      ensures ok ==> i < |db.instances| && db.instances[i].preparedAt.Some?
      ensures calm ==> Holds(db, i, c) && Marked(old(db).instances[i], db.instances[i])
      ensures calm ==> View() == old(View()).(db := old(db).(instances := old(db.instances)[i := db.instances[i]]))
    {
      Here();
      Pause(calm, View());
      var failed := Fails(calm);
      if failed {
        return false;
      }
      var now: nat :| true;
      Tied();
      MarkAllowed(View(), i, c, now);
      Execute(MarkPrepared(i, now));
      return true;
    }

    // `observe_process`
    method Observe(i: nat, c: nat, running: bool, calm: bool) returns (ok: bool)
      requires Valid() && Holds(db, i, c)
      modifies this
      ensures Valid() && (calm ==> ok)
      ensures ok ==> i < |db.instances| && db.instances[i].observedAt.Some? && db.instances[i].running == running
      ensures calm ==> Holds(db, i, c) && Observed(old(db).instances[i], db.instances[i], running)
      ensures calm ==> View() == old(View()).(db := old(db).(instances := old(db.instances)[i := db.instances[i]]))
    {
      Here();
      Pause(calm, View());
      var failed := Fails(calm);
      if failed {
        return false;
      }
      var now: nat :| true;
      Execute(ObserveProcess(i, running, now));
      return true;
    }

    // Write down what was seen; true if the row had to change.
    method PersistObservations(i: nat, c: nat, report: Report, calm: bool) returns (r: Result<bool, Failure>)
      requires Valid() && Holds(db, i, c) && db.computes[c].shutdownAt.None? && Reported(View(), i, c, report)
      requires calm ==> c in nodes && report == ReportOf(nodes[c])
      modifies this
      ensures Valid()
      ensures r == Ok(false) ==> View() == old(View()) && Recorded(db.instances[i], report)
      ensures calm ==> r.Ok? && sessions == old(sessions) && nodes == old(nodes) && restic == old(restic)
      ensures calm && r.value ==> Noted(old(FocusOf(View())), FocusOf(View()))
    {
      Focused(i, c);
      var row := db.instances[i];
      var ok := true;
      if report.prepared && row.preparedAt.None? {
        ok := Mark(i, c, calm);
      } else if row.observedAt.None? || row.running != report.running {
        ok := Observe(i, c, report.running, calm);
      } else {
        return Ok(false);
      }
      if calm {
        Focused(i, c);
      }
      return if ok then Ok(true) else Err(Unavailable);
    }

    // `commit`: publish the snapshot. It never finds a conflict.
    method Publish(i: nat, c: nat, id: SnapshotId, calm: bool) returns (ok: bool)
      requires Valid() && Holds(db, i, c) && db.instances[i].result.None? && (i, id) in offered && Idle(View(), c)
      modifies this
      ensures Valid() && (calm ==> ok)
      ensures ok ==> db.server.current == Some(id) && i < |db.instances| && db.instances[i].result == Some(id)
      ensures calm ==> Holds(db, i, c) && HasResult(old(db).instances[i], db.instances[i])
      ensures calm ==>
          nodes == old(nodes) && sessions == old(sessions) && db.computes == old(db.computes) && restic == old(restic)
      ensures calm ==> db.server.desired == old(db.server.desired)
    {
      Here();
      Pause(calm, View());
      var failed := Fails(calm);
      if failed {
        return false;
      }
      var now: nat :| true;
      var token := db.instances[i].token;
      Tied();
      CommitAllowed(View(), i, c, token, id, now);
      CommitNeverConflicts(ws, es, |es|, i, id);
      Execute(Commit(i, token, id, now));
      return true;
    }

    // The machine is taken away. A VM is left alone unless it is the recorded one or none is recorded.
    method Destroy(i: nat, c: nat, calm: bool) returns (ok: bool)
      requires Valid() && Holds(db, i, c) && db.computes[c].shutdownAt.Some?
      modifies this
      ensures Valid() && Steady(old(View()), View()) && (calm ==> ok)
      ensures ok ==> !Leaves(View(), c)
      ensures calm ==> db == old(db) && nodes == if StrayNode(old(View()), c) then old(nodes) else old(nodes) - {c}
      ensures calm && c !in old(sessions) ==> sessions == old(sessions)
      ensures calm ==> restic == old(restic)
    {
      Here();
      Pause(calm, View());
      var failed := Fails(calm);
      if failed {
        return false;
      }
      var recorded := db.computes[c].machine;
      if c in nodes && (db.computes[c].provider == LocalProcess || recorded.None? || recorded == Some(nodes[c].id)) {
        Do(Event.Destroy(c));
      }
      return true;
    }

    // `node.shutdown`, best effort: the agent leaves and its session closes.
    method Dismiss(c: nat)
      requires Valid()
      modifies this
      ensures Valid() && db == old(db) && offered == old(offered) && c !in sessions
      ensures old(Quiet(View())) ==> Quiet(View())
      ensures nodes.Keys == old(nodes.Keys) && restic == old(restic)
      ensures c in nodes ==> nodes[c].id == old(nodes)[c].id
      ensures old(Connected(View(), c)) ==> !nodes[c].agentUp
      ensures forall d :: d in nodes && d != c ==> nodes[d] == old(nodes)[d]
    {
      if Connected(View(), c) {
        Do(AgentDown(c));
      }
      Do(Disconnect(c, false));
    }

    // The shutdown goes on record, and the agent is told.
    method Renounce(i: nat, c: nat, calm: bool) returns (ok: bool)
      requires Valid() && Holds(db, i, c) && db.instances[i].stopAt.Some? && db.instances[i].SafeToDiscard()
      modifies this
      ensures Valid() && Holds(db, i, c) && (calm ==> ok)
      ensures ok ==> db.computes[c].shutdownAt.Some?
      ensures calm ==> db.instances == old(db.instances) && db.server == old(db.server)
      ensures calm ==>
          |db.computes| == |old(db.computes)| && db.computes == old(db.computes)[c := db.computes[c]]
      ensures calm && old(Quiet(View())) ==> Quiet(View())
      ensures calm ==> c !in sessions && restic == old(restic)
      ensures calm ==> nodes.Keys == old(nodes.Keys) && (StrayNode(View(), c) <==> StrayNode(old(View()), c))
      ensures calm ==> forall d :: d in nodes && d != c ==> nodes[d] == old(nodes)[d]
    {
      Here();
      Pause(calm, View());
      var failed := Fails(calm);
      if failed {
        return false;
      }
      var now: nat :| true;
      Execute(RequestShutdown(c, now));
      if calm {
        Dismiss(c);
      }
      return true;
    }

    /** `delete`: the machine first, its row afterwards. Only a VM the record does not lead to is
        left. */
    method Delete(i: nat, c: nat, calm: bool) returns (ok: bool)
      requires Valid() && Holds(db, i, c) && db.instances[i].stopAt.Some? && db.instances[i].SafeToDiscard()
      modifies this
      ensures Valid() && (calm ==> ok)
      ensures ok ==> c < |db.computes| && !db.computes[c].Active()
      ensures calm ==> db.instances == old(db.instances) && db.server == old(db.server)
      ensures calm ==>
          |db.computes| == |old(db.computes)| && db.computes == old(db.computes)[c := db.computes[c]]
          && db.computes[c].instance == i
      ensures calm && old(Quiet(View())) ==> Quiet(View())
      ensures calm ==> restic == old(restic)
      ensures ok ==> !Leaves(View(), c)
      ensures calm ==> nodes.Keys == old(nodes.Keys) - if StrayNode(old(View()), c) then {} else {c}
      ensures calm ==> forall d :: d in nodes && d != c ==> nodes[d] == old(nodes)[d]
    {
      ok := Renounce(i, c, calm);
      if ok {
        ok := Destroy(i, c, calm);
      }
      if ok {
        ok := Terminate(i, c, calm);
      }
    }

    // `terminate`
    method Terminate(i: nat, c: nat, calm: bool) returns (ok: bool)
      requires Valid() && Holds(db, i, c) && db.computes[c].shutdownAt.Some? && !Leaves(View(), c)
      modifies this
      ensures Valid() && (calm ==> ok)
      ensures ok ==> c < |db.computes| && !db.computes[c].Active() && !Leaves(View(), c)
      ensures calm ==>
          db == old(db).(computes := db.computes) && nodes == old(nodes) && sessions == old(sessions)
          && restic == old(restic)
      ensures calm ==>
          |db.computes| == |old(db.computes)| && db.computes == old(db.computes)[c := db.computes[c]]
          && db.computes[c].instance == i
    {
      Here();
      Pause(calm, View());
      var failed := Fails(calm);
      if failed {
        return false;
      }
      var now: nat :| true;
      Execute(TerminateCompute(c, Deleted, now));
      return true;
    }

    // One command whose effect is then written down.
    method RestoreStep(i: nat, c: nat, calm: bool) returns (ok: bool)
      requires Valid() && Holds(db, i, c) && RowAllows(db.instances[i], Restore) && db.computes[c].shutdownAt.None?
      requires calm ==> Connected(View(), c) && Quiet(View())
      modifies this
      ensures Valid() && (calm ==> ok && Quiet(View()) && restic == old(restic))
      ensures calm ==> Stepped(old(FocusOf(View())), FocusOf(View()), Restore)
      ensures ok ==> i < |db.instances| && db.instances[i].preparedAt.Some?
    {
      Focused(i, c);
      var r := Call(i, c, Restore, "", calm);
      ok := false;
      if r.Some? {
        ok := Mark(i, c, calm);
        if calm {
          Focused(i, c);
        }
      }
    }

    method StartStep(i: nat, c: nat, calm: bool) returns (ok: bool)
      requires Valid() && Holds(db, i, c) && RowAllows(db.instances[i], Start)
      requires calm ==> Connected(View(), c) && Quiet(View()) && nodes[c].state.Some?
      modifies this
      ensures Valid() && (calm ==> ok && Quiet(View()) && restic == old(restic))
      ensures calm ==> Stepped(old(FocusOf(View())), FocusOf(View()), Start)
      ensures ok ==> i < |db.instances| && db.instances[i].running
    {
      Focused(i, c);
      var r := Call(i, c, Start, "", calm);
      ok := false;
      if r.Some? {
        ok := Observe(i, c, true, calm);
        if calm {
          Focused(i, c);
        }
      }
    }

    method StopStep(i: nat, c: nat, calm: bool) returns (ok: bool)
      requires Valid() && Holds(db, i, c) && RowAllows(db.instances[i], Stop)
      requires calm ==> Connected(View(), c) && Quiet(View()) && nodes[c].state.Some?
      modifies this
      ensures Valid() && (calm ==> ok && Quiet(View()) && restic == old(restic))
      ensures calm ==> Stepped(old(FocusOf(View())), FocusOf(View()), Stop)
      ensures ok ==> i < |db.instances| && !db.instances[i].running
    {
      Focused(i, c);
      var r := Call(i, c, Stop, "", calm);
      ok := false;
      if r.Some? {
        ok := Observe(i, c, false, calm);
        if calm {
          Focused(i, c);
        }
      }
    }

    method BackupStep(i: nat, c: nat, id: SnapshotId, calm: bool) returns (ok: bool)
      requires Valid() && Holds(db, i, c) && RowAllows(db.instances[i], Backup)
      requires calm ==> Connected(View(), c) && Quiet(View()) && Ready(nodes[c], Backup) && FreshId(View(), id)
      modifies this
      ensures Valid() && (calm ==> ok && Quiet(View()) && Grew(old(restic), restic, id))
      ensures ok ==> i < |db.instances| && db.instances[i].result.Some? && db.server.current == db.instances[i].result
      ensures calm ==> Saved(old(FocusOf(View())), FocusOf(View()))
    {
      Focused(i, c);
      var r := Call(i, c, Backup, id, calm);
      ok := false;
      if r.Some? {
        ok := Publish(i, c, r.value.id, calm);
      }
      if calm {
        Focused(i, c);
      }
    }

    // Delete the machine of a stopped instance.
    method RetireStep(i: nat, c: nat, calm: bool) returns (ok: bool)
      requires Valid() && Holds(db, i, c) && db.instances[i].stopAt.Some? && db.instances[i].SafeToDiscard()
      requires calm ==> Quiet(View())
      modifies this
      ensures Valid() && (calm ==> ok && Quiet(View()) && restic == old(restic))
      ensures calm ==> FocusOf(View()) == Focus(old(db.server.desired), Some(old(db).instances[i]), None, None)
      ensures ok ==> c < |db.computes| && !db.computes[c].Active() && !Leaves(View(), c)
    {
      ok := Delete(i, c, calm);
      if calm {
        Bereft(i, c);
      }
    }

    // Without its machine an instance has only its row.
    lemma Bereft(i: nat, c: nat)
      requires Valid() && i < |db.instances| && db.instances[i].Active()
      requires c < |db.computes| && db.computes[c].instance == i && !db.computes[c].Active()
      ensures FocusOf(View()) == Focus(db.server.desired, Some(db.instances[i]), None, None)
    {
      Overview(i);
      Tied();
      OnlyCompute(db.instances, db.computes, c);
    }

    // Remove what is on the machine; then, once nothing is left, the machine.
    method CleanupStep(i: nat, c: nat, calm: bool) returns (ok: bool)
      requires Valid() && Holds(db, i, c) && RowAllows(db.instances[i], Cleanup)
      requires db.instances[i].result.Some? || Unprepared(View(), c)
      requires calm ==> Connected(View(), c) && Quiet(View())
      modifies this
      ensures Valid() && (calm ==> ok && Quiet(View()) && restic == old(restic))
      ensures calm ==> Cleaned(old(FocusAt(View(), i, c)), FocusOf(View()))
      ensures ok ==> Bare(View(), c)
    {
      var r := Call(i, c, Cleanup, "", calm);
      if r.None? {
        return false;
      }
      if r.value.changed {
        if calm {
          Focused(i, c);
        }
        return true;
      }
      ok := RetireStep(i, c, calm);
    }

    // `complete`
    method CompleteStep(i: nat, calm: bool) returns (ok: bool)
      requires Valid() && i < |db.instances| && db.instances[i].Active() && db.instances[i].stopAt.Some?
      requires db.instances[i].SafeToDiscard() && !HasActiveCompute(db.computes, i)
      modifies this
      ensures Valid() && (calm ==> ok)
      ensures calm ==> nodes == old(nodes) && sessions == old(sessions) && restic == old(restic)
      ensures calm ==> FocusOf(View()) == Focus(old(db.server.desired), None, None, None)
      ensures ok ==> i < |db.instances| && !db.instances[i].Active()
    {
      Here();
      Overview(i);
      ghost var start := View();
      Pause(calm, start);
      var failed := Fails(calm);
      if failed {
        return false;
      }
      StillNone(start, View(), i);
      var now: nat :| true;
      Execute(Complete(i, Completed, now));
      if calm {
        Over(i);
      }
      return true;
    }

    lemma Over(i: nat)
      requires Valid() && i == |db.instances| - 1 && !db.instances[i].Active()
      ensures ActiveOf(db.instances).None?
    {
      ValidIsSafe();
      OnlyLastActive(db.server.nextToken, db.instances);
    }

    // The machine has lived long enough: ask for a safe stop, as a client would.
    method ExpireStep(server: Server, i: nat, c: nat, now: nat, id: SnapshotId, calm: bool)
        returns (r: Result<StepOutcome, Failure>)
      requires Valid() && Holds(db, i, c) && db.instances[i].stopAt.None? && server.desired == Running
          && ReadEarlier(server, db.server) && Lapsed(db.computes[c], now, maxLifetime)
      requires calm ==> server == db.server && Quiet(View())
      modifies this
      ensures Valid() && (calm ==> Good(old(View()), View(), r, id))
      ensures calm ==> r == if server.generation < MAX_GENERATION then Ok(Changed) else Err(GenerationExhausted)
      ensures calm ==> (db.server.desired == Stopped <==> server.generation < MAX_GENERATION)
    {
      Focused(i, c);
      var edit := SetDesired(server, Stopped, now);
      if edit.Err? {
        Checks();
        return Err(GenerationExhausted);
      }
      Here();
      Pause(calm, View());
      var failed := Fails(calm);
      if failed {
        return Err(Unavailable);
      }
      Checks();
      assert Lapsed(db.computes[c], now, maxLifetime);
      Execute(UpdateDesired(server, Stopped, now));
      if calm {
        Focused(i, c);
        ExpiredRank(old(FocusAt(View(), i, c)));
      }
      return Ok(Changed);
    }

    lemma Checks()
      requires Valid()
      ensures ServerChecks(db.server)
    {
      ValidIsSafe();
    }

    // Ask the agent, check that the data is still there, and write down what it said.
    method Look(i: nat, c: nat, calm: bool) returns (r: Result<(Report, bool), Failure>)
      requires Valid() && Holds(db, i, c) && db.computes[c].shutdownAt.None?
      requires calm ==> Connected(View(), c) && Quiet(View())
      modifies this
      ensures Valid()
      ensures r.Ok? && !r.value.1 ==>
          Rely(old(View()), View()) && Reported(View(), i, c, r.value.0) && Recorded(db.instances[i], r.value.0)
      ensures r.Ok? && !r.value.1 && db.instances[i].preparedAt.Some? && db.instances[i].result.None? ==>
          r.value.0.prepared
      ensures calm && r.Err? ==> r.error == WritableDataLost && Stuck(FocusOf(View())) && View() == old(View())
      ensures calm && r.Ok? && r.value.1 ==>
          Quiet(View()) && Noted(old(FocusOf(View())), FocusOf(View())) && restic == old(restic)
      ensures calm && r.Ok? && !r.value.1 ==> View() == old(View()) && r.value.0 == ReportOf(nodes[c])
    {
      Focused(i, c);
      var report := Inspect(i, c, calm);
      if report.None? {
        return Err(Unavailable);
      }
      var row := db.instances[i];
      if row.preparedAt.Some? && row.result.None? && !report.value.prepared {
        return Err(WritableDataLost);
      }
      var noted := PersistObservations(i, c, report.value, calm);
      if noted.Err? {
        return Err(noted.error);
      }
      return Ok((report.value, noted.value));
    }

    // Drive a running instance whose agent is connected.
    method RunMachine(i: nat, c: nat, id: SnapshotId, calm: bool) returns (r: Result<StepOutcome, Failure>)
      requires Valid() && Holds(db, i, c) && db.instances[i].stopAt.None? && db.computes[c].shutdownAt.None?
      requires calm ==> Connected(View(), c) && Quiet(View()) && db.server.desired == Running
      requires calm ==> db.computes[c].machine == Some(nodes[c].id)
      modifies this
      ensures Valid() && (calm ==> Good(old(View()), View(), r, id))
      ensures calm ==> db.server.desired == Running && r != Err(GenerationExhausted)
    {
      ghost var f := FocusOf(View());
      Focused(i, c);
      var seen := Look(i, c, calm);
      if seen.Err? {
        return Err(seen.error);
      }
      var report := seen.value.0;
      if seen.value.1 {
        if calm {
          NotedRank(f, FocusOf(View()));
        }
        return Ok(Changed);
      }
      Unpublished(i);
      if !report.prepared {
        var ok := RestoreStep(i, c, calm);
        if calm {
          SteppedRank(f, FocusOf(View()), Restore);
        }
        return if ok then Ok(Changed) else Err(Unavailable);
      }
      if !report.running {
        var ok := StartStep(i, c, calm);
        if calm {
          SteppedRank(f, FocusOf(View()), Start);
        }
        return if ok then Ok(Changed) else Err(Unavailable);
      }
      return Ok(Stable);
    }

    // Drive a stopping instance whose agent is connected: stop, save, publish, clean up, delete.
    method StopMachine(i: nat, c: nat, id: SnapshotId, calm: bool) returns (r: Result<StepOutcome, Failure>)
      requires Valid() && Holds(db, i, c) && db.instances[i].stopAt.Some? && db.computes[c].shutdownAt.None?
      requires calm ==> Connected(View(), c) && Quiet(View()) && FreshId(View(), id)
      modifies this
      ensures Valid() && (calm ==> Good(old(View()), View(), r, id))
    {
      ghost var f := FocusOf(View());
      Focused(i, c);
      var seen := Look(i, c, calm);
      if seen.Err? {
        return Err(seen.error);
      }
      var report := seen.value.0;
      if seen.value.1 {
        if calm {
          NotedRank(f, FocusOf(View()));
        }
        return Ok(Changed);
      }
      if report.running {
        var ok := StopStep(i, c, calm);
        if calm {
          SteppedRank(f, FocusOf(View()), Stop);
        }
        return if ok then Ok(Changed) else Err(Unavailable);
      }
      r := Conclude(i, c, report, id, calm);
    }

    // The process is down: the data goes into the repository, then the machine goes.
    method Conclude(i: nat, c: nat, report: Report, id: SnapshotId, calm: bool)
        returns (r: Result<StepOutcome, Failure>)
      requires Valid() && Holds(db, i, c) && db.instances[i].stopAt.Some?
      requires Reported(View(), i, c, report) && Recorded(db.instances[i], report) && !report.running
      requires db.instances[i].preparedAt.Some? && db.instances[i].result.None? ==> report.prepared
      requires calm ==> Connected(View(), c) && Quiet(View()) && report == ReportOf(nodes[c]) && FreshId(View(), id)
      modifies this
      ensures Valid() && (calm ==> Good(old(View()), View(), r, id))
    {
      ghost var f := FocusOf(View());
      Focused(i, c);
      var row := db.instances[i];
      var ok: bool;
      if row.preparedAt.Some? && row.result.None? {
        if report.last.Some? {
          ok := PublishStep(i, c, report.last.value, calm);
        } else {
          ok := BackupStep(i, c, id, calm);
        }
        if calm {
          SavedRank(f, FocusOf(View()));
        }
        return if ok then Ok(Changed) else Err(Unavailable);
      }
      ok := CleanupStep(i, c, calm);
      if calm {
        CleanedRank(f, FocusOf(View()));
      }
      return if ok then Ok(Changed) else Err(Unavailable);
    }

    // A snapshot the agent had already taken, but whose answer was lost.
    method PublishStep(i: nat, c: nat, id: SnapshotId, calm: bool) returns (ok: bool)
      requires Valid() && Holds(db, i, c) && db.instances[i].result.None? && (i, id) in offered && Idle(View(), c)
      requires calm ==> Quiet(View()) && c in nodes
      modifies this
      ensures Valid() && (calm ==> ok && Quiet(View()) && restic == old(restic))
      ensures calm ==> Saved(old(FocusOf(View())), FocusOf(View()))
    {
      Focused(i, c);
      ok := Publish(i, c, id, calm);
      if calm {
        Focused(i, c);
      }
    }

    // Nothing is published before a stop is requested.
    lemma Unpublished(i: nat)
      requires Valid() && i < |db.instances| && db.instances[i].stopAt.None?
      ensures db.instances[i].result.None?
    {
      ValidIsSafe();
      assert InstanceOk(db.instances[i], i, restic, log, offered);
      if db.instances[i].result.Some? {
        assert OfferOk(db.instances, restic, log, (i, db.instances[i].result.value));
      }
    }

    /** `reconcile_running` */
    method ReconcileRunning(server: Server, i: nat, now: nat, id: SnapshotId, calm: bool)
        returns (r: Result<StepOutcome, Failure>)
      requires Valid() && i < |db.instances| && db.instances[i].Active() && db.instances[i].stopAt.None?
      requires server.desired == Running && ReadEarlier(server, db.server)
      requires calm ==> server == db.server && Quiet(View())
      modifies this
      ensures Valid() && (calm ==> Good(old(View()), View(), r, id))
      ensures calm ==> (db.server.desired == Stopped <==>
          Expired(old(FocusOf(View())), now, maxLifetime) && server.generation < MAX_GENERATION)
      ensures calm ==> (r == Err(GenerationExhausted) <==>
          Expired(old(FocusOf(View())), now, maxLifetime) && server.generation >= MAX_GENERATION)
    {
      ghost var f := FocusOf(View());
      RunningKeepsMachine(i);
      Unpublished(i);
      var machine := Ensure(i, calm);
      if machine.Err? {
        return Err(machine.error);
      }
      var c := machine.value.0;
      if machine.value.1 {
        if calm {
          EnsuredRank(f, FocusOf(View()));
        }
        return Ok(Changed);
      }
      Focused(i, c);
      if db.computes[c].provider == AkamaiVm && now >= db.computes[c].createdAt + maxLifetime {
        r := ExpireStep(server, i, c, now, id, calm);
        return;
      }
      if c !in sessions {
        return Ok(Awaiting);
      }
      Reachable(c);
      r := RunMachine(i, c, id, calm);
    }

    /** `reconcile_stopping` */
    method ReconcileStopping(i: nat, id: SnapshotId, calm: bool) returns (r: Result<StepOutcome, Failure>)
      requires Valid() && i < |db.instances| && db.instances[i].Active() && db.instances[i].stopAt.Some?
      requires calm ==> Quiet(View()) && FreshId(View(), id)
      modifies this
      ensures Valid() && (calm ==> Good(old(View()), View(), r, id))
    {
      Overview(i);
      var row := db.instances[i];
      var found := ComputeOf(db.computes, i);
      if found.None? {
        if row.preparedAt.Some? && row.result.None? {
          return Err(WritableDataLost);
        }
        var ok := CompleteStep(i, calm);
        return if ok then Ok(Changed) else Err(Unavailable);
      }
      var c := found.value;
      if row.SafeToDiscard() && (db.computes[c].shutdownAt.Some? || c !in sessions) {
        var ok := RetireStep(i, c, calm);
        return if ok then Ok(Changed) else Err(Unavailable);
      }
      StoppingKeepsMachine(i, c);
      if c in sessions {
        Reachable(c);
      }
      r := Wind(i, id, calm);
    }

    // The data still has to be saved, or the agent is there to clean up.
    method Wind(i: nat, id: SnapshotId, calm: bool) returns (r: Result<StepOutcome, Failure>)
      requires Valid() && i < |db.instances| && db.instances[i].Active() && db.instances[i].stopAt.Some?
      requires ComputeOf(db.computes, i).Some? && NotShutDown(db.computes, i)
      requires calm ==>
          Quiet(View()) && FreshId(View(), id)
          && (db.instances[i].result.None? || ComputeOf(db.computes, i).value in nodes)
      modifies this
      ensures Valid() && (calm ==> Good(old(View()), View(), r, id))
    {
      ghost var f := FocusOf(View());
      Overview(i);
      var machine := Ensure(i, calm);
      if machine.Err? {
        return Err(machine.error);
      }
      var c := machine.value.0;
      if machine.value.1 {
        if calm {
          EnsuredRank(f, FocusOf(View()));
        }
        return Ok(Changed);
      }
      if c !in sessions {
        Focused(i, c);
        return Ok(Awaiting);
      }
      Reachable(c);
      r := StopMachine(i, c, id, calm);
    }

    lemma RunningKeepsMachine(i: nat)
      requires Valid() && i < |db.instances| && db.instances[i].Active() && db.instances[i].stopAt.None?
      ensures NotShutDown(db.computes, i) && ActiveOf(db.instances) == Some(i)
    {
      Overview(i);
      Tied();
      forall c | 0 <= c < |db.computes| && db.computes[c].instance == i && db.computes[c].Active()
          ensures db.computes[c].shutdownAt.None? {
        assert ComputeOk(db.instances, db.computes[c]);
      }
    }

    lemma StoppingKeepsMachine(i: nat, c: nat)
      requires Valid() && Holds(db, i, c) && (db.instances[i].SafeToDiscard() ==> db.computes[c].shutdownAt.None?)
      ensures NotShutDown(db.computes, i)
    {
      Tied();
      if db.computes[c].shutdownAt.Some? {
        ShutdownMeansSafe(View(), i, c);
      }
      OnlyCompute(db.instances, db.computes, c);
    }

    // In a quiet world a registered session leads to an idle agent.
    lemma Reachable(c: nat)
      requires Valid() && c in sessions
      ensures Quiet(View()) ==> Connected(View(), c)
    {
      ValidIsSafe();
    }

    /** `reconcile_once` */
    method ReconcileOnce(now: nat, id: SnapshotId, calm: bool) returns (r: Result<StepOutcome, Failure>)
      requires Valid() && (calm ==> Quiet(View()) && FreshId(View(), id))
      modifies this
      ensures Valid() && (calm ==> Good(old(View()), View(), r, id))
    {
      Here();
      var server := db.server;
      Pause(calm, View());
      var failed := Fails(calm);
      if failed {
        return Err(Unavailable);
      }
      var active := ActiveOf(db.instances);
      if active.None? {
        if server.desired == Running {
          r := CreateStep(id, calm);
          return;
        }
        return Ok(Stable);
      }
      var i := active.value;
      if db.instances[i].stopAt.Some? {
        r := ReconcileStopping(i, id, calm);
      } else if server.desired == Stopped {
        r := RequestStep(i, id, calm);
      } else {
        r := ReconcileRunning(server, i, now, id, calm);
      }
    }

    // `create_for_running_server` inserts nothing if the server was stopped meanwhile.
    method CreateStep(id: SnapshotId, calm: bool) returns (r: Result<StepOutcome, Failure>)
      requires Valid() && ActiveOf(db.instances).None?
      requires calm ==> Quiet(View()) && db.server.desired == Running
      modifies this
      ensures Valid() && (calm ==> Good(old(View()), View(), r, id))
      ensures r.Ok? ==> r.value != Awaiting
      ensures r.Ok? ==> |db.instances| == |old(db.instances)| + if r.value == Changed then 1 else 0
    {
      Here();
      Tied();
      Pause(calm, View());
      var failed := Fails(calm);
      if failed {
        return Err(Unavailable);
      }
      var before := |db.instances|;
      var now: nat :| true;
      if calm {
        CreatedRank(View(), now);
      }
      Execute(CreateInstance(now));
      if |db.instances| > before {
        return Ok(Changed);
      }
      return Ok(Stable);
    }

    method RequestStep(i: nat, id: SnapshotId, calm: bool) returns (r: Result<StepOutcome, Failure>)
      requires Valid() && i < |db.instances| && db.instances[i].Active() && db.instances[i].stopAt.None?
      requires calm ==> Quiet(View()) && db.server.desired == Stopped
      modifies this
      ensures Valid() && (calm ==> Good(old(View()), View(), r, id))
    {
      Here();
      Overview(i);
      Pause(calm, View());
      var failed := Fails(calm);
      if failed {
        return Err(Unavailable);
      }
      var now: nat :| true;
      ghost var f := FocusOf(View());
      Execute(RequestStop(i, now));
      if calm {
        Overview(i);
        RequestedRank(f, FocusOf(View()));
      }
      return Ok(Changed);
    }

    // Between two undisturbed steps only agents come and go.
    method Chatter(calm: bool)
      requires Valid() && (calm ==> Quiet(View()))
      modifies this
      ensures Valid() && (calm ==> Quiet(View()) && restic == old(restic))
      ensures calm ==> Rank(FocusOf(View())) == old(Rank(FocusOf(View())))
    {
      if !calm {
        Here();
        Pause(false, View());
        return;
      }
      var n: nat :| true;
      while n > 0
        invariant Valid() && Quiet(View()) && Rank(FocusOf(View())) == old(Rank(FocusOf(View())))
            && restic == old(restic)
      {
        var c: nat :| true;
        var joins: bool := *;
        if joins && Enabled(View(), Register(c)) {
          Join(c);
        } else if !joins {
          Leave(c);
        }
        n := n - 1;
      }
    }

    method Join(c: nat)
      requires Valid() && Quiet(View()) && Enabled(View(), Register(c))
      modifies this
      ensures Valid() && Quiet(View()) && Rank(FocusOf(View())) == old(Rank(FocusOf(View()))) && restic == old(restic)
    {
      JoinFocus(View(), c);
      FocusWithoutSessions(View().(nodes := nodes[c := nodes[c].(reply := None)]), sessions[c := Live]);
      Do(Register(c));
    }

    method Leave(c: nat)
      requires Valid() && Quiet(View())
      modifies this
      ensures Valid() && Quiet(View()) && Rank(FocusOf(View())) == old(Rank(FocusOf(View()))) && restic == old(restic)
    {
      Do(Disconnect(c, false));
    }

    /** `reconcile_until_blocked`: undisturbed, the bound of 32 transitions is never
        reached; the worker ends because the client has what it asked for, because
        an agent has yet to connect, or because prepared data is gone or the
        generations have run out. `ids` are the ids restic would print, transition
        by transition. */
    method ReconcileUntilBlocked(ids: seq<SnapshotId>, calm: bool)
        returns (r: Ending, ghost steps: seq<Result<StepOutcome, Failure>>)
      requires Valid()
      requires calm ==> Quiet(View()) && |ids| >= MAX_IMMEDIATE_TRANSITIONS && Supply(View(), ids, 0)
      modifies this
      ensures Valid() && Concluded(steps, r)
      ensures calm ==> r != DidNotConverge
      ensures calm && r == Arrived ==> Settled(View())
      ensures calm && r == Arrived && db.server.desired == Stopped ==> forall c :: c in nodes ==> StrayNode(View(), c)
      ensures calm && r == Retry ==> Unconnected(View())
      ensures calm && r.Blocked? && r.error == GenerationExhausted ==>
          db.server.desired == Running && db.server.generation >= MAX_GENERATION
      ensures calm && r.Blocked? && r.error != GenerationExhausted ==> Stuck(FocusOf(View()))
    {
      steps := [];
      for n := 0 to MAX_IMMEDIATE_TRANSITIONS
        invariant Valid() && |steps| == n && forall k :: 0 <= k < n ==> steps[k] == Ok(Changed)
        invariant calm ==>
            Quiet(View()) && Supply(View(), ids, n) && Rank(FocusOf(View())) + n < MAX_IMMEDIATE_TRANSITIONS
      {
        ghost var before := View();
        var now: nat :| true;
        var step := ReconcileOnce(now, if n < |ids| then ids[n] else "", calm);
        steps := steps + [step];
        match step
        case Ok(Changed) =>
          Chatter(calm);
          if calm {
            SupplyLasts(before, View(), ids, n);
          }
        case Ok(Stable) =>
          if calm && db.server.desired == Stopped {
            forall c | c in nodes ensures StrayNode(View(), c) {
              NothingLeftRunning(ws, es, |es|, c);
            }
          }
          return Arrived, steps;
        case Ok(Awaiting) => return Retry, steps;
        case Err(e) => return Blocked(e), steps;
      }
      return DidNotConverge, steps;
    }

    lemma RightProvider(c: nat)
      requires Valid() && c < |db.computes|
      ensures db.computes[c].instance < |db.instances|
      ensures db.computes[c].provider == ProviderOf(db.instances[db.computes[c].instance].spec.compute)
    {
      ValidIsSafe();
      assert ComputeOk(db.instances, db.computes[c]);
    }

    lemma Tied()
      requires Valid()
      ensures ComputesTied(db.instances, db.computes)
    {
      ValidIsSafe();
    }

    // Where the worker stands once it knows the machine.
    lemma Focused(i: nat, c: nat)
      requires Valid() && Holds(db, i, c)
      ensures FocusOf(View()) == FocusAt(View(), i, c)
      ensures ActiveOf(db.instances) == Some(i) && ComputeOf(db.computes, i) == Some(c)
    {
      ValidIsSafe();
      ActiveOfFenced(db.server.nextToken, db.instances, i);
      ComputeOfTied(db.instances, db.computes, c);
    }

    lemma Overview(i: nat)
      requires Valid() && i < |db.instances| && db.instances[i].Active()
      ensures ActiveOf(db.instances) == Some(i) && i == |db.instances| - 1
    {
      ValidIsSafe();
      ActiveOfFenced(db.server.nextToken, db.instances, i);
    }
  }
}
