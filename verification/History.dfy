/** Whole runs of the database: any sequence of statements, from any number of
    clients and one reconciler, with any arguments and any clock. A client edit
    carries a row that was read at some earlier point of the run. */
module History {
  import opened Domain
  import opened Database

  // `Server::new`: the row a client creates.
  ghost predicate Fresh(db: Db) {
    && ValidSpec(db.server.spec)
    && db == Db(Server(1, Stopped, db.server.spec, None, 1, None, db.server.createdAt, db.server.createdAt), [], [], [])
  }

  ghost predicate StepOk(dbs: seq<Db>, sts: seq<Statement>, k: nat)
    requires k < |sts| && |dbs| == |sts| + 1
  {
    && dbs[k + 1] == Exec(dbs[k], sts[k])
    && (IsEdit(sts[k]) ==> exists j :: 0 <= j <= k && dbs[j].server == sts[k].read)
  }

  ghost predicate Run(dbs: seq<Db>, sts: seq<Statement>) {
    && |dbs| == |sts| + 1
    && Fresh(dbs[0])
    && forall k :: 0 <= k < |sts| ==> StepOk(dbs, sts, k)
  }

  // ------------------------------------------- how rows may change over time

  ghost predicate Kept<T>(a: Option<T>, b: Option<T>) {
    a.Some? ==> b == a
  }

  ghost predicate RowEvolves(a: Instance, b: Instance) {
    && b.token == a.token && b.generation == a.generation && b.spec == a.spec
    && b.source == a.source && b.createdAt == a.createdAt && a.updatedAt <= b.updatedAt
    && Kept(a.preparedAt, b.preparedAt)
    && Kept(a.stopAt, b.stopAt)
    && Kept(a.result, b.result)
    && (!a.Active() ==> b == a)
  }

  ghost predicate ComputeEvolves(a: Compute, b: Compute) {
    && b.instance == a.instance && b.provider == a.provider && b.createdAt == a.createdAt
    && Kept(a.shutdownAt, b.shutdownAt)
    && (!a.Active() ==> b == a)
  }

  ghost predicate InstancesEvolve(a: seq<Instance>, b: seq<Instance>) {
    |a| <= |b| && forall k :: 0 <= k < |a| ==> RowEvolves(a[k], b[k])
  }

  ghost predicate ComputesEvolve(a: seq<Compute>, b: seq<Compute>) {
    |a| <= |b| && forall k :: 0 <= k < |a| ==> ComputeEvolves(a[k], b[k])
  }

  ghost predicate Evolves(a: Db, b: Db) {
    && ReadEarlier(a.server, b.server)
    && a.server.nextToken <= b.server.nextToken
    && InstancesEvolve(a.instances, b.instances)
    && ComputesEvolve(a.computes, b.computes)
    && a.snapshots <= b.snapshots
    && (a.server.archivedAt.Some? ==> b.server == a.server && b.instances == a.instances)
  }

  lemma EvolvesTransitive(a: Db, b: Db, c: Db)
    requires Evolves(a, b) && Evolves(b, c)
    ensures Evolves(a, c)
  {
    forall k | 0 <= k < |a.instances| ensures RowEvolves(a.instances[k], c.instances[k]) {
      assert RowEvolves(a.instances[k], b.instances[k]) && RowEvolves(b.instances[k], c.instances[k]);
    }
    forall k | 0 <= k < |a.computes| ensures ComputeEvolves(a.computes[k], c.computes[k]) {
      assert ComputeEvolves(a.computes[k], b.computes[k]) && ComputeEvolves(b.computes[k], c.computes[k]);
    }
  }

  lemma EditEvolves(db: Db, st: Statement)
    requires ServerChecks(db.server) && ValidSpec(db.server.spec) && IsEdit(st) && Admissible(db, st)
    ensures Evolves(db, Exec(db, st))
  {
    if EditApplies(db, st) {
      EditChecks(db, st);
    }
  }

  lemma StepEvolves(db: Db, st: Statement)
    requires DbInv(db) && Admissible(db, st)
    ensures Evolves(db, Exec(db, st))
  {
    if IsEdit(st) {
      EditEvolves(db, st);
    } else {
      assert db.server.archivedAt.Some? ==> !HasActive(db.instances) && db.server.desired == Stopped;
      RowsStep(db, st);
    }
  }

  lemma RowsStep(db: Db, st: Statement)
    requires ServerChecks(db.server) && !IsEdit(st)
    requires db.server.archivedAt.Some? ==> !HasActive(db.instances)
    ensures Evolves(db, Exec(db, st))
  {
    if OnInstance(st) {
      InstanceRowStep(db, st.i, st);
    } else if OnCompute(st) {
      ComputeRowStep(db, st.c, st);
    } else {
      InsertStep(db, st);
    }
  }

  lemma InstanceRowStep(db: Db, i: nat, st: Statement)
    requires ServerChecks(db.server) && OnInstance(st)
    requires db.server.archivedAt.Some? ==> !HasActive(db.instances)
    ensures Evolves(db, UpdateInstance(db, i, st))
  {}

  lemma ComputeRowStep(db: Db, c: nat, st: Statement)
    requires ServerChecks(db.server) && OnCompute(st)
    ensures Evolves(db, UpdateCompute(db, c, st))
  {}

  lemma InsertStep(db: Db, st: Statement)
    requires ServerChecks(db.server) && !IsEdit(st) && !OnInstance(st) && !OnCompute(st)
    requires db.server.archivedAt.Some? ==> !HasActive(db.instances)
    ensures Evolves(db, Exec(db, st))
  {}

  // ------------------------------------------------------------ all of a run

  /** Every database of every run keeps the schema's promises, and rows only
      ever move forward between any two of its moments. */
  lemma RunKeepsPromises(dbs: seq<Db>, sts: seq<Statement>, k: nat)
    requires Run(dbs, sts) && k < |dbs|
    ensures DbInv(dbs[k])
    ensures forall j :: 0 <= j <= k ==> Evolves(dbs[j], dbs[k])
  {
    forall j | 0 <= j <= k ensures Evolves(dbs[j], dbs[k]) {
      RunEvolves(dbs, sts, j, k);
    }
    RunIsChecked(dbs, sts, k);
  }

  lemma {:induction false} RunIsChecked(dbs: seq<Db>, sts: seq<Statement>, k: nat)
    requires Run(dbs, sts) && k < |dbs|
    ensures DbInv(dbs[k]) && ReadBefore(dbs, k)
  {
    if k > 0 {
      var p := k - 1;
      RunIsChecked(dbs, sts, p);
      StepAdmissible(dbs, sts, p);
      ExecKeepsInv(dbs[p], sts[p]);
      ServerMovesOn(dbs[p], sts[p]);
      ReadStillBefore(dbs, p);
    }
  }

  // Every row read so far counts as read earlier.
  ghost predicate ReadBefore(dbs: seq<Db>, k: nat)
    requires k < |dbs|
  {
    forall j :: 0 <= j <= k ==> ReadEarlier(dbs[j].server, dbs[k].server)
  }

  lemma StepAdmissible(dbs: seq<Db>, sts: seq<Statement>, k: nat)
    requires Run(dbs, sts) && k < |sts| && ReadBefore(dbs, k)
    ensures Admissible(dbs[k], sts[k]) && dbs[k + 1] == Exec(dbs[k], sts[k])
  {
    assert StepOk(dbs, sts, k);
  }

  lemma ReadStillBefore(dbs: seq<Db>, k: nat)
    requires k + 1 < |dbs| && ReadBefore(dbs, k) && ReadEarlier(dbs[k].server, dbs[k + 1].server)
    requires ServerChecks(dbs[k + 1].server)
    ensures ReadBefore(dbs, k + 1)
  {
    forall j | 0 <= j <= k + 1 ensures ReadEarlier(dbs[j].server, dbs[k + 1].server) {
      if j <= k {
        assert ReadEarlier(dbs[j].server, dbs[k].server);
      }
    }
  }

  lemma ServerMovesOn(db: Db, st: Statement)
    requires DbInv(db) && Admissible(db, st)
    ensures ReadEarlier(db.server, Exec(db, st).server)
  {
    StepEvolves(db, st);
  }

  lemma {:induction false} RunEvolves(dbs: seq<Db>, sts: seq<Statement>, j: nat, k: nat)
    requires Run(dbs, sts) && j <= k < |dbs|
    ensures Evolves(dbs[j], dbs[k])
  {
    if j == k {
      RunIsChecked(dbs, sts, j);
      EvolvesReflexive(dbs[j]);
    } else {
      RunEvolves(dbs, sts, j, k - 1);
      RunStepEvolves(dbs, sts, k - 1);
      EvolvesTransitive(dbs[j], dbs[k - 1], dbs[k]);
    }
  }

  lemma RunStepEvolves(dbs: seq<Db>, sts: seq<Statement>, k: nat)
    requires Run(dbs, sts) && k < |sts|
    ensures Evolves(dbs[k], dbs[k + 1])
  {
    RunIsChecked(dbs, sts, k);
    StepAdmissible(dbs, sts, k);
    StepEvolves(dbs[k], sts[k]);
  }

  lemma EvolvesReflexive(db: Db)
    requires ServerChecks(db.server)
    ensures Evolves(db, db)
  {}

  /** A snapshot is published once and for all: at every later time of the run, repeating the
      commit is recognised as long as the instance is active, the instance publishes no other
      snapshot, and no other instance publishes this one. */
  lemma CommitOnce(dbs: seq<Db>, sts: seq<Statement>, j: nat, k: nat, other: SnapshotId)
    requires Run(dbs, sts) && j < k < |dbs| && sts[j].Commit?
    requires Outcome(dbs[j], sts[j].i, sts[j].token, sts[j].id) == Published
    ensures var i, token, id := sts[j].i, sts[j].token, sts[j].id;
            && i < |dbs[k].instances| && dbs[k].instances[i].result == Some(id)
            && Outcome(dbs[k], i, token, id) == (if dbs[k].instances[i].Active() then AlreadyPublished else Stale)
            && (other != id && ValidSnapshotId(other) ==>
                  Outcome(dbs[k], i, token, other) == if dbs[k].instances[i].Active() then PublishedAnother else Stale)
    ensures forall t :: Outcome(dbs[k], sts[j].i, t, other) != Published
    ensures forall h, t :: Outcome(dbs[k], h, t, sts[j].id) != Published
  {
    var i, id := sts[j].i, sts[j].id;
    assert StepOk(dbs, sts, j);
    RunEvolves(dbs, sts, j + 1, k);
    assert RowEvolves(dbs[j + 1].instances[i], dbs[k].instances[i]);
    var m := |dbs[j].snapshots|;
    assert dbs[j + 1].snapshots[m].id == id;
    assert 0 <= m < |dbs[k].snapshots| && dbs[k].snapshots[m].id == id;
  }

  // `p` is the newest publisher among the first `n` instances.
  ghost predicate NewestPublisher(s: seq<Instance>, n: nat, p: nat) {
    p < n <= |s| && s[p].result.Some? && forall q :: p < q < n ==> s[q].result.None?
  }

  // `id` is what the newest publisher among the first `n` instances published, if there is one.
  ghost predicate PublishedBefore(id: Option<SnapshotId>, s: seq<Instance>, n: nat)
    requires n <= |s|
  {
    match id
    case None => forall q :: 0 <= q < n ==> s[q].result.None?
    case Some(_) => exists p: nat :: NewestPublisher(s, n, p) && s[p].result == id
  }

  ghost predicate SingleActive(nextToken: nat, s: seq<Instance>) {
    forall a, b :: 0 <= a < |s| && 0 <= b < |s| && s[a].Active() ==>
      s[b].token <= s[a].token < nextToken && (s[b].Active() ==> a == b)
  }

  /** Fenced publication, in any database of any run: at most one instance is
      active and it holds the highest token; the current snapshot is what the
      highest-token publisher published; every instance was created from what
      the nearest earlier publisher published, or from nothing. */
  lemma FencedPublication(dbs: seq<Db>, sts: seq<Statement>, k: nat)
    requires Run(dbs, sts) && k < |dbs|
    ensures SingleActive(dbs[k].server.nextToken, dbs[k].instances)
    ensures PublishedBefore(dbs[k].server.current, dbs[k].instances, |dbs[k].instances|)
    ensures forall i :: 0 <= i < |dbs[k].instances| ==> PublishedBefore(dbs[k].instances[i].source, dbs[k].instances, i)
  {
    RunKeepsPromises(dbs, sts, k);
    FencedIsSingle(dbs[k].server.nextToken, dbs[k].instances);
    ChainedIsPublished(dbs[k].server.current, dbs[k].instances);
  }

  lemma FencedIsSingle(nextToken: nat, s: seq<Instance>)
    requires Fenced(nextToken, s)
    ensures SingleActive(nextToken, s)
  {
    forall a | 0 <= a < |s| && s[a].Active() ensures a == |s| - 1 {
      ActiveIsLast(nextToken, s, a);
    }
  }

  lemma ChainedIsPublished(current: Option<SnapshotId>, s: seq<Instance>)
    requires Chained(current, s)
    ensures PublishedBefore(current, s, |s|)
    ensures forall i :: 0 <= i < |s| ==> PublishedBefore(s[i].source, s, i)
  {
    assert s[..|s|] == s;
    LastIsPublished(s, |s|);
    forall i | 0 <= i < |s| ensures PublishedBefore(s[i].source, s, i) {
      LastIsPublished(s, i);
    }
  }

  /** `LastResult` is the result of the newest publisher. */
  lemma {:induction false} LastIsPublished(s: seq<Instance>, n: nat)
    requires n <= |s|
    ensures PublishedBefore(LastResult(s[..n]), s, n)
  {
    if n > 0 {
      assert s[..n][..n - 1] == s[..n - 1];
      if s[n - 1].result.Some? {
        assert NewestPublisher(s, n, n - 1);
      } else {
        LastIsPublished(s, n - 1);
        if LastResult(s[..n]).Some? {
          var p: nat :| NewestPublisher(s, n - 1, p) && s[p].result == LastResult(s[..n]);
          assert NewestPublisher(s, n, p);
        }
      }
    }
  }

  /** Clocks that stall or run backwards never break a row: every row that is
      read decodes, lifetimes of one server's instances are disjoint and in
      token order, and every snapshot was taken within its instance's life. */
  lemma ClockRobust(dbs: seq<Db>, sts: seq<Statement>, k: nat)
    requires Run(dbs, sts) && k < |dbs|
    ensures forall i :: 0 <= i < |dbs[k].instances| ==> Rehydrate(dbs[k].instances[i]) == Ok(dbs[k].instances[i])
    ensures forall c :: 0 <= c < |dbs[k].computes| ==> RehydrateCompute(dbs[k].computes[c]) == Ok(dbs[k].computes[c])
    ensures forall i, j :: 0 <= i < j < |dbs[k].instances| ==>
              && dbs[k].instances[i].token < dbs[k].instances[j].token
              && dbs[k].instances[i].terminatedAt.Some?
              && dbs[k].instances[i].terminatedAt.value <= dbs[k].instances[j].createdAt
    ensures forall m :: 0 <= m < |dbs[k].snapshots| ==>
              var s := dbs[k].snapshots[m];
              && s.instance < |dbs[k].instances|
              && dbs[k].instances[s.instance].createdAt <= s.createdAt <= dbs[k].instances[s.instance].updatedAt
              && (dbs[k].instances[s.instance].terminatedAt.Some? ==>
                    s.createdAt <= dbs[k].instances[s.instance].terminatedAt.value)
  {
    RunKeepsPromises(dbs, sts, k);
    var db := dbs[k];
    forall i | 0 <= i < |db.instances| ensures Rehydrate(db.instances[i]) == Ok(db.instances[i]) {
      CheckedRowsDecode(db.instances[i]);
    }
    forall c | 0 <= c < |db.computes| ensures RehydrateCompute(db.computes[c]) == Ok(db.computes[c]) {
      CheckedComputesDecode(db.computes[c]);
    }
    forall i, j | 0 <= i < j < |db.instances|
      ensures db.instances[i].terminatedAt.Some? && db.instances[i].terminatedAt.value <= db.instances[j].createdAt
    {
      assert InstanceChecks(db.instances[i]);
    }
    forall m | 0 <= m < |db.snapshots| ensures ListedOnce(db.snapshots[m], db.instances) {}
  }

  lemma CheckedRowsDecode(r: Instance)
    requires InstanceChecks(r) && ValidSpec(r.spec)
    ensures Rehydrate(r) == Ok(r)
  {}

  lemma CheckedComputesDecode(r: Compute)
    requires ComputeChecks(r)
    ensures RehydrateCompute(r) == Ok(r)
  {}

  /** Once archived, nothing about the server changes again and no instance of
      it is ever active, whatever statements follow. */
  lemma ArchiveIsPermanent(dbs: seq<Db>, sts: seq<Statement>, j: nat, k: nat)
    requires Run(dbs, sts) && j <= k < |dbs|
    requires dbs[j].server.archivedAt.Some?
    ensures dbs[k].server == dbs[j].server && dbs[k].instances == dbs[j].instances
    ensures !HasActive(dbs[k].instances)
  {
    RunKeepsPromises(dbs, sts, k);
    assert Evolves(dbs[j], dbs[k]);
  }

  // Statement `k` of the run is a client edit that changed the row.
  ghost predicate Won(dbs: seq<Db>, sts: seq<Statement>, k: nat) {
    k < |sts| < |dbs| && IsEdit(sts[k]) && EditApplies(dbs[k], sts[k])
  }

  /** No lost update: an edit that lands was computed from exactly the client
      columns the row still has, moves the generation by one and leaves a
      concurrently published snapshot alone; and two edits that read the same
      generation never both land. */
  lemma NoLostUpdate(dbs: seq<Db>, sts: seq<Statement>, j: nat, k: nat)
    requires Run(dbs, sts) && j < k && Won(dbs, sts, j) && Won(dbs, sts, k)
    ensures sts[j].read.generation < sts[k].read.generation
    ensures sts[k].read.desired == dbs[k].server.desired && sts[k].read.spec == dbs[k].server.spec
    ensures dbs[k + 1].server.generation == dbs[k].server.generation + 1
    ensures dbs[k + 1].server.current == dbs[k].server.current
    ensures dbs[k + 1].instances == dbs[k].instances
  {
    EditLands(dbs, sts, j);
    EditLands(dbs, sts, k);
    GenerationsGrow(dbs, sts, j + 1, k);
  }

  lemma GenerationsGrow(dbs: seq<Db>, sts: seq<Statement>, j: nat, k: nat)
    requires Run(dbs, sts) && j <= k < |dbs|
    ensures dbs[j].server.generation <= dbs[k].server.generation
  {
    RunKeepsPromises(dbs, sts, k);
    assert Evolves(dbs[j], dbs[k]);
  }

  lemma ReadWasEarlier(dbs: seq<Db>, sts: seq<Statement>, k: nat)
    requires Run(dbs, sts) && k < |sts| && IsEdit(sts[k])
    ensures ServerChecks(dbs[k].server) && ValidSpec(dbs[k].server.spec)
    ensures ReadEarlier(sts[k].read, dbs[k].server)
  {
    RunKeepsPromises(dbs, sts, k);
    assert StepOk(dbs, sts, k);
    var j :| 0 <= j <= k && dbs[j].server == sts[k].read;
    assert Evolves(dbs[j], dbs[k]);
  }

  lemma EditLands(dbs: seq<Db>, sts: seq<Statement>, k: nat)
    requires Run(dbs, sts) && Won(dbs, sts, k)
    ensures sts[k].read.generation == dbs[k].server.generation
    ensures sts[k].read.desired == dbs[k].server.desired && sts[k].read.spec == dbs[k].server.spec
    ensures dbs[k + 1].server.generation == dbs[k].server.generation + 1
    ensures dbs[k + 1].server.current == dbs[k].server.current
    ensures dbs[k + 1].instances == dbs[k].instances
  {
    ReadWasEarlier(dbs, sts, k);
    assert StepOk(dbs, sts, k);
    EditChecks(dbs[k], sts[k]);
  }

  /** Every instance runs the very spec its server had at the generation it
      records, and every spec the server ever had names the same storage. */
  lemma SpecAtGeneration(dbs: seq<Db>, sts: seq<Statement>, k: nat, i: nat, j: nat)
    requires Run(dbs, sts) && k < |dbs| && j < |dbs| && i < |dbs[k].instances|
    ensures dbs[j].server.generation == dbs[k].instances[i].generation ==>
        dbs[j].server.spec == dbs[k].instances[i].spec
    ensures exists m :: 0 <= m <= k && dbs[m].server.generation == dbs[k].instances[i].generation
    ensures dbs[j].server.spec.data == dbs[k].instances[i].spec.data
  {
    var m := CreationMoment(dbs, sts, k, i);
    if m <= j {
      RunKeepsPromises(dbs, sts, j);
      assert Evolves(dbs[m], dbs[j]);
    } else {
      RunKeepsPromises(dbs, sts, m);
      assert Evolves(dbs[j], dbs[m]);
    }
  }

  lemma {:induction false} CreationMoment(dbs: seq<Db>, sts: seq<Statement>, k: nat, i: nat) returns (m: nat)
    requires Run(dbs, sts) && k < |dbs| && i < |dbs[k].instances|
    ensures m <= k
    ensures dbs[m].server.generation == dbs[k].instances[i].generation && dbs[m].server.spec == dbs[k].instances[i].spec
  {
    var p := k - 1;
    assert StepOk(dbs, sts, p);
    OneRowAtATime(dbs[p], sts[p], i);
    if i < |dbs[p].instances| {
      m := CreationMoment(dbs, sts, p, i);
    } else {
      m := p;
    }
  }

  lemma OneRowAtATime(db: Db, st: Statement, i: nat)
    requires i < |Exec(db, st).instances|
    ensures var row := Exec(db, st).instances[i];
            if i < |db.instances| then row.generation == db.instances[i].generation && row.spec == db.instances[i].spec
            else row.generation == db.server.generation && row.spec == db.server.spec
  {}
}
