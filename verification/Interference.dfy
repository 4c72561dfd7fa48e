/** What may happen around the reconciler while it waits for a database, an
    agent or a provider: clients edit the server row, agents register, crash
    and work on, processes write, machines vanish. */
module Interference {
  import opened Domain
  import opened Database
  import opened Lifecycle
  import opened Safety

  // Only the columns an authenticating agent writes may differ.
  ghost predicate SameCompute(a: Compute, b: Compute) {
    b == a.(connectedAt := b.connectedAt, updatedAt := b.updatedAt)
  }

  ghost predicate SameComputes(a: seq<Compute>, b: seq<Compute>) {
    |a| == |b| && forall c :: 0 <= c < |a| ==> SameCompute(a[c], b[c])
  }

  // A machine without a command in flight keeps what is on its disk.
  ghost predicate SameDisk(a: Node, b: Node) {
    b.id == a.id && (a.inflight.None? ==> b.inflight.None? && b.state == a.state)
  }

  ghost predicate SameNodes(a: map<nat, Node>, b: map<nat, Node>) {
    forall c :: c in b ==> c in a && SameDisk(a[c], b[c])
  }

  // What the worker may rely on across a wait.
  ghost predicate Rely(w: World, w': World) {
    && w'.db.instances == w.db.instances
    && SameComputes(w.db.computes, w'.db.computes)
    && SameNodes(w.nodes, w'.nodes)
    && w.offered <= w'.offered
    && ReadEarlier(w.db.server, w'.db.server)
  }

  lemma RelyStays(w: World)
    requires ServerChecks(w.db.server)
    ensures Rely(w, w)
  {}

  lemma {:induction false} RelyChains(a: World, b: World, c: World)
    requires Rely(a, b) && Rely(b, c)
    ensures Rely(a, c)
  {
    forall k | 0 <= k < |a.db.computes| ensures SameCompute(a.db.computes[k], c.db.computes[k]) {
      assert SameCompute(a.db.computes[k], b.db.computes[k]) && SameCompute(b.db.computes[k], c.db.computes[k]);
    }
    forall k | k in c.nodes ensures k in a.nodes && SameDisk(a.nodes[k], c.nodes[k]) {
      assert SameDisk(b.nodes[k], c.nodes[k]) && SameDisk(a.nodes[k], b.nodes[k]);
    }
  }

  lemma EditRely(w: World, st: Statement)
    requires DbInv(w.db) && IsEdit(st) && Admissible(w.db, st)
    ensures Rely(w, Apply(w, Sql(st)))
  {
    if EditApplies(w.db, st) {
      EditChecks(w.db, st);
      assert Edited(w.db, st).createdAt == w.db.server.createdAt;
    }
  }

  lemma PutRely(ns: map<nat, Node>, c: nat, node: Node)
    requires c in ns && SameDisk(ns[c], node)
    ensures SameNodes(ns, ns[c := node])
  {}

  lemma MoveRely(w: World, c: nat, move: Move)
    requires c in w.nodes && w.nodes[c].inflight.Some?
    ensures SameNodes(w.nodes, Moved(w, c, move).nodes)
    ensures Moved(w, c, move).db == w.db && w.offered <= Moved(w, c, move).offered
  {
    MovedHere(w, c, move);
    PutRely(w.nodes, c, Moved(w, c, move).nodes[c]);
  }

  lemma LocalRely(w: World, e: Event)
    requires ServerChecks(w.db.server) && Enabled(w, e)
        && (e.AgentUp? || e.Abort? || e.AgentDown? || e.Register? || e.Write? || e.Exit?)
    ensures Rely(w, Apply(w, e))
  {
    var w' := Apply(w, e);
    assert w'.db == w.db;
    if e.c in w'.nodes {
      PutRely(w.nodes, e.c, w'.nodes[e.c]);
    }
  }

  lemma AgentRowRely(w: World, st: Statement)
    requires ServerChecks(w.db.server) && ByAgent(st)
    ensures Rely(w, Apply(w, Sql(st)))
  {}

  lemma GoneRely(w: World, e: Event)
    requires ServerChecks(w.db.server) && (e.Lose? || e.Disconnect?)
    ensures Rely(w, Apply(w, e))
  {}

  /** Whatever others do, the worker's footing holds. */
  lemma EnvironmentRely(w: World, e: Event)
    requires DbInv(w.db) && Enabled(w, e) && !ByWorker(e)
    ensures Rely(w, Apply(w, e))
  {
    if e.Sql? {
      if IsEdit(e.st) {
        EditRely(w, e.st);
      } else {
        AgentRowRely(w, e.st);
      }
    } else if e.Agent? {
      MoveRely(w, e.c, e.move);
    } else if e.Lose? || e.Disconnect? {
      GoneRely(w, e);
    } else {
      LocalRely(w, e);
    }
  }

  lemma StepRely(base: World, w: World, e: Event)
    requires Rely(base, w) && DbInv(w.db) && Enabled(w, e) && !ByWorker(e)
    ensures Rely(base, Apply(w, e))
  {
    EnvironmentRely(w, e);
    RelyChains(base, w, Apply(w, e));
  }
}
