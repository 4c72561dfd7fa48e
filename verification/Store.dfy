/** The transactions and compare-and-swap loops of the control plane, step by
    step, against any interleaving with other writers. */
module Store {
  import opened Domain
  import opened Database
  import opened History

  // What a client asks of a server: the three operations of the server service.
  datatype Request = SetState(desired: DesiredState) | ApplySpec(wanted: DesiredSpec) | ArchiveServer

  datatype ServiceError =
    Invalid(error: DomainError) | HasActiveInstance | GenerationConflict(actual: nat) | ConcurrentUpdate

  datatype CommitError = Rejected(why: Publication) | Aborted

  function StatementFor(request: Request, read: Server, now: nat): (st: Statement)
    ensures IsEdit(st) && st.read == read
  {
    match request
    case SetState(desired) => UpdateDesired(read, desired, now)
    case ApplySpec(wanted) => UpdateSpec(read, wanted, now)
    case ArchiveServer => Archive(read, now)
  }

  function Answer(outcome: Publication): Result<bool, CommitError> {
    match outcome
    case Published => Ok(true)
    case AlreadyPublished => Ok(false)
    case _ => Err(Rejected(outcome))
  }

  // The request asks for nothing the row does not already say.
  ghost predicate Granted(request: Request, s: Server) {
    match request
    case SetState(desired) => s.desired == desired
    case ApplySpec(wanted) => Resolve(wanted, Some(s.spec.data), None) == Ok(s.spec)
    case ArchiveServer => s.archivedAt.Some?
  }

  // The columns a client owns.
  ghost predicate SameClientColumns(a: Server, b: Server) {
    a.generation == b.generation && a.desired == b.desired && a.spec == b.spec
        && a.archivedAt.Some? == b.archivedAt.Some?
  }

  // The new row is the row the edit was computed from, changed as requested and in nothing else.
  ghost predicate Effect(request: Request, s: Server, s': Server) {
    && s'.generation == s.generation + 1
    && Granted(request, s')
    && (!request.SetState? ==> s'.desired == s.desired)
    && (!request.ApplySpec? ==> s'.spec == s.spec)
    && (!request.ArchiveServer? ==> s'.archivedAt == s.archivedAt)
    && s'.spec.data == s.spec.data && s'.current == s.current && s'.nextToken == s.nextToken
        && s'.createdAt == s.createdAt
  }

  // How a call ends, read off the row: the state is set exactly if that is a change, ...
  ghost predicate StateAnswer(desired: DesiredState, s: Server, r: Result<Server, ServiceError>, changed: bool) {
    && (changed <==> s.archivedAt.None? && s.desired != desired && s.generation < MAX_GENERATION)
    && (r == Err(Invalid(ServerArchived)) <==> s.archivedAt.Some?)
    && (r == Err(Invalid(GenerationOverflow)) <==>
          s.archivedAt.None? && s.desired != desired && s.generation >= MAX_GENERATION)
    && (s.archivedAt.None? && s.desired == desired ==> r == Ok(s))
  }

  // ... a spec exactly if it resolves to another one while the server is to be down, ...
  ghost predicate SpecAnswer(wanted: DesiredSpec, s: Server, r: Result<Server, ServiceError>, changed: bool) {
    var spec := Resolve(wanted, Some(s.spec.data), None);
    var other := spec.Ok? && s.archivedAt.None? && spec.value != s.spec;
    && (changed <==> other && s.desired == Stopped && s.generation < MAX_GENERATION)
    && (spec.Err? ==> r == Err(Invalid(spec.error)))
    && (r == Err(Invalid(ServerArchived)) <==> spec.Ok? && s.archivedAt.Some?)
    && (r == Err(Invalid(MustBeStopped)) <==> other && s.desired == Running)
    && (r == Err(Invalid(GenerationOverflow)) <==> other && s.desired == Stopped && s.generation >= MAX_GENERATION)
    && (spec.Ok? && s.archivedAt.None? && spec.value == s.spec ==> r == Ok(s))
  }

  // ... and a server is archived exactly if it is to be down and nothing of it is active.
  ghost predicate ArchiveAnswer(s: Server, active: bool, r: Result<Server, ServiceError>, changed: bool) {
    var free := s.archivedAt.None? && !active;
    && (changed <==> free && s.desired == Stopped && s.generation < MAX_GENERATION)
    && (s.archivedAt.Some? ==> r == Ok(s))
    && (r == Err(HasActiveInstance) <==> s.archivedAt.None? && active)
    && (r == Err(Invalid(MustBeStopped)) <==> free && s.desired == Running)
    && (r == Err(Invalid(GenerationOverflow)) <==> free && s.desired == Stopped && s.generation >= MAX_GENERATION)
  }

  // How a request ends that nobody interferes with; the clock decides nothing.
  ghost predicate Undisturbed(request: Request, expected: Option<nat>, db: Db, r: Result<Server, ServiceError>,
      changed: bool) {
    if expected.Some? && expected.value != db.server.generation then
      r == Err(GenerationConflict(db.server.generation)) && !changed
    else
      match request
      case SetState(desired) => StateAnswer(desired, db.server, r, changed)
      case ApplySpec(wanted) => SpecAnswer(wanted, db.server, r, changed)
      case ArchiveServer => ArchiveAnswer(db.server, HasActive(db.instances), r, changed)
  }

  // An edit of the row as it is lands.
  lemma CurrentEditLands(request: Request, db: Db, now: nat)
    requires ServerChecks(db.server) && (request.ArchiveServer? ==> !HasActive(db.instances))
    ensures var st := StatementFor(request, db.server, now);
            EditOf(st).Ok? && EditOf(st).value.Some? ==> EditApplies(db, st)
  {}

  // What the edit comes to decides how the call ends.
  lemma EditDecides(request: Request, expected: Option<nat>, db: Db, now: nat)
    requires expected.Some? ==> expected.value == db.server.generation
    requires request.ArchiveServer? ==> db.server.archivedAt.None? && !HasActive(db.instances)
    ensures var edit := EditOf(StatementFor(request, db.server, now));
            && (edit.Err? ==> Undisturbed(request, expected, db, Err(Invalid(edit.error)), false))
            && (edit.Ok? && edit.value.None? ==> Undisturbed(request, expected, db, Ok(db.server), false))
            && (edit.Ok? && edit.value.Some? ==> forall s :: Undisturbed(request, expected, db, Ok(s), true))
  {}

  // A statement one call sent.
  ghost predicate Mine(sts: seq<Statement>, request: Request, from: nat, k: nat) {
    from <= k < |sts| && IsEdit(sts[k]) && sts[k] == StatementFor(request, sts[k].read, sts[k].now)
  }

  // Statements one call sent, in their order, none of which changed the row.
  ghost predicate AllLost(dbs: seq<Db>, sts: seq<Statement>, request: Request, from: nat, tries: seq<nat>) {
    && (forall j :: 0 <= j < |tries| ==> Mine(sts, request, from, tries[j]) && !Won(dbs, sts, tries[j]))
    && (forall j, k :: 0 <= j < k < |tries| ==> tries[j] < tries[k])
  }

  // What is lost stays lost, and lies before whatever is sent later.
  lemma LostStays(dbs: seq<Db>, sts: seq<Statement>, dbs': seq<Db>, sts': seq<Statement>, request: Request, from: nat,
      tries: seq<nat>)
    requires AllLost(dbs, sts, request, from, tries) && dbs <= dbs' && sts <= sts' && |dbs| == |sts| + 1
    ensures AllLost(dbs', sts', request, from, tries) && forall j :: 0 <= j < |tries| ==> tries[j] < |sts|
  {
    forall j | 0 <= j < |tries|
        ensures Mine(sts', request, from, tries[j]) && !Won(dbs', sts', tries[j]) && tries[j] < |sts| {
      assert Mine(sts, request, from, tries[j]) && !Won(dbs, sts, tries[j]);
    }
  }

  lemma LostMore(dbs: seq<Db>, sts: seq<Statement>, request: Request, from: nat, since: nat, tries: seq<nat>, k: nat)
    requires AllLost(dbs, sts, request, from, tries) && (forall j :: 0 <= j < |tries| ==> tries[j] < since)
    requires from <= since && Mine(sts, request, since, k)
    ensures !Won(dbs, sts, k) ==> AllLost(dbs, sts, request, from, tries + [k])
    ensures (tries + [k])[..|tries|] == tries && Mine(sts, request, from, k)
  {}

  // Two edits that both landed found different generations.
  lemma {:induction false} GenerationWonOnce(dbs: seq<Db>, sts: seq<Statement>, j: nat, k: nat)
    requires Run(dbs, sts) && Won(dbs, sts, j) && Won(dbs, sts, k)
    requires dbs[j].server.generation == dbs[k].server.generation
    ensures j == k
  {
    EditLands(dbs, sts, j);
    EditLands(dbs, sts, k);
    if j < k {
      GenerationsGrow(dbs, sts, j + 1, k);
    } else if k < j {
      GenerationsGrow(dbs, sts, k + 1, j);
    }
  }

  lemma EditGrants(dbs: seq<Db>, sts: seq<Statement>, k: nat, request: Request)
    requires Run(dbs, sts) && Won(dbs, sts, k) && sts[k] == StatementFor(request, sts[k].read, sts[k].now)
    ensures Effect(request, dbs[k].server, dbs[k + 1].server)
    ensures SameClientColumns(EditOf(sts[k]).value.value, dbs[k + 1].server)
  {
    EditLands(dbs, sts, k);
    ReadWasEarlier(dbs, sts, k);
    assert StepOk(dbs, sts, k);
  }

  /** One server's tables, with the history of every committed statement. */
  class Tables {
    var db: Db
    var dbs: seq<Db>
    var sts: seq<Statement>

    ghost predicate Valid()
      reads this
    {
      Run(dbs, sts) && dbs[|sts|] == db
    }

    constructor (db0: Db)
      requires Fresh(db0)
      ensures Valid() && db == db0
    {
      db, dbs, sts := db0, [db0], [];
    }

    // One committed statement or transaction joins the history.
    method Record(st: Statement, after: Db)
      requires Valid() && after == Exec(db, st)
      requires IsEdit(st) ==> exists j :: 0 <= j < |dbs| && dbs[j].server == st.read
      modifies this
      ensures Valid() && db == after && dbs == old(dbs) + [after] && sts == old(sts) + [st]
    {
      ghost var dbs', sts' := dbs + [after], sts + [st];
      forall k | 0 <= k < |sts'| ensures StepOk(dbs', sts', k) {
        if k < |sts| {
          assert StepOk(dbs, sts, k);
        }
        if IsEdit(sts'[k]) {
          var j :| 0 <= j <= k && dbs[j].server == sts'[k].read;
          assert dbs'[j].server == sts'[k].read;
        }
      }
      db, dbs, sts := after, dbs + [after], sts + [st];
    }

    // Others write. Their edits, too, are computed from rows they read before.
    method Interfere(calm: bool)
      requires Valid()
      modifies this
      ensures Valid() && old(dbs) <= dbs && old(sts) <= sts
      ensures calm ==> db == old(db) && dbs == old(dbs) && sts == old(sts)
    {
      if calm {
        return;
      }
      var n: nat :| true;
      while n > 0
        invariant Valid() && old(dbs) <= dbs && old(sts) <= sts
      {
        var st: Statement := *;
        var j: int := *;
        if !IsEdit(st) || (0 <= j < |dbs| && st.read == dbs[j].server) {
          Record(st, Exec(db, st));
        }
        n := n - 1;
      }
    }

    // Write back the edit of a row read at `at`, unless the row has moved on.
    method Swap(request: Request, st: Statement, ghost at: nat, calm: bool) returns (hit: bool)
      requires Valid() && at < |dbs| && IsEdit(st) && dbs[at].server == st.read
          && st == StatementFor(request, st.read, st.now)
      modifies this
      ensures Valid() && old(dbs) <= dbs && old(sts) < sts && Mine(sts, request, |old(sts)|, |sts| - 1)
      ensures hit <==> Won(dbs, sts, |sts| - 1)
      ensures hit ==>
          Landed(request, |sts| - 1) && EditOf(st).Ok? && EditOf(st).value.Some?
          && SameClientColumns(EditOf(st).value.value, db.server)
      ensures hit ==> dbs[|sts| - 1].server.generation == st.read.generation
      ensures calm ==> (hit <==> EditApplies(old(db), st))
    {
      Interfere(calm);
      hit := EditApplies(db, st);
      Record(st, Exec(db, st));
      if hit {
        EditGrants(dbs, sts, |sts| - 1, request);
      }
    }

    ghost predicate Landed(request: Request, k: nat)
      reads this
    {
      Won(dbs, sts, k) && Effect(request, dbs[k].server, dbs[k + 1].server)
    }

    // The row as it is now, if the request can be computed from it.
    method Read(request: Request, expected: Option<nat>, calm: bool)
      returns (server: Server, refused: Option<Result<Server, ServiceError>>, ghost at: nat)
      requires Valid()
      modifies this
      ensures Valid() && old(dbs) <= dbs && old(sts) <= sts
      ensures |old(sts)| <= at < |dbs| && dbs[at].server == server
      ensures expected.Some? && expected.value != server.generation ==>
          refused == Some(Err(GenerationConflict(server.generation)))
      ensures refused.Some? && refused.value.Ok? ==> refused.value.value == server && Granted(request, server)
      ensures refused.Some? && refused.value.Err? && refused.value.error.GenerationConflict? ==> expected.Some?
      ensures refused.Some? && refused.value.Err? ==>
          refused.value.error.GenerationConflict? || refused.value.error.HasActiveInstance?
      ensures calm ==> db == old(db) && server == db.server
      ensures calm && refused.Some? ==> Undisturbed(request, expected, db, refused.value, false)
      ensures calm && refused.None? && request.ArchiveServer? ==> server.archivedAt.None? && !HasActive(db.instances)
    {
      Interfere(calm);
      server, at, refused := db.server, |sts|, None;
      if expected.Some? && expected.value != server.generation {
        refused := Some(Err(GenerationConflict(server.generation)));
      } else if request.ArchiveServer? {
        if server.archivedAt.Some? {
          refused := Some(Ok(server));
          return;
        }
        Interfere(calm);
        if HasActive(db.instances) {
          refused := Some(Err(HasActiveInstance));
        }
      }
    }

    // Write back what was computed from the row read at moment `at`.
    method WriteBack(request: Request, expected: Option<nat>, st: Statement, ghost at: nat, calm: bool)
      returns (r: Option<Result<Server, ServiceError>>, ghost tried: nat, ghost hit: bool)
      requires Valid() && at < |dbs| && IsEdit(st) && dbs[at].server == st.read
      requires st == StatementFor(request, st.read, st.now) && EditOf(st).Ok? && EditOf(st).value.Some?
      requires expected.Some? ==> expected.value == st.read.generation
      modifies this
      ensures Valid() && old(dbs) <= dbs && old(sts) <= sts
      ensures Mine(sts, request, |old(sts)|, tried) && (hit <==> Won(dbs, sts, tried))
      ensures hit ==> r.Some? && r.value.Ok? && Landed(request, tried)
      ensures hit ==> SameClientColumns(r.value.value, dbs[tried + 1].server)
      ensures hit && expected.Some? ==> dbs[tried].server.generation == expected.value
      ensures !hit && expected.None? ==> r.None?
      ensures !hit && expected.Some? ==> r.Some? && r.value.Err? && r.value.error.GenerationConflict?
      ensures calm ==> (hit <==> EditApplies(old(db), st))
    {
      var landed := Swap(request, st, at, calm);
      tried, hit := |sts| - 1, landed;
      if landed {
        return Some(Ok(EditOf(st).value.value)), tried, hit;
      }
      if expected.None? {
        return None, tried, hit;
      }
      Interfere(calm);
      return Some(Err(GenerationConflict(db.server.generation))), tried, hit;
    }

    // One round of reading, editing and writing back. No result means: try again.
    method Attempt(request: Request, expected: Option<nat>, calm: bool)
      returns (r: Option<Result<Server, ServiceError>>, ghost tried: Option<nat>, ghost hit: bool)
      requires Valid()
      modifies this
      ensures Valid() && old(dbs) <= dbs && old(sts) <= sts
      ensures tried.Some? ==> Mine(sts, request, |old(sts)|, tried.value) && (hit <==> Won(dbs, sts, tried.value))
      ensures hit ==> tried.Some? && r.Some? && r.value.Ok? && Landed(request, tried.value)
      ensures hit ==> SameClientColumns(r.value.value, dbs[tried.value + 1].server)
      ensures hit && expected.Some? ==> dbs[tried.value].server.generation == expected.value
      ensures r.Some? && r.value.Ok? && !hit ==> Granted(request, r.value.value) && ReadSince(|old(sts)|, r.value.value)
      ensures r.Some? && r.value.Err? && r.value.error.GenerationConflict? ==> expected.Some?
      ensures r.Some? && r.value.Err? ==> r.value.error != ConcurrentUpdate
      ensures r.None? ==> tried.Some? && expected.None?
      ensures tried.Some? && !hit && expected.None? ==> r.None?
      ensures calm ==> r.Some? && Undisturbed(request, expected, old(db), r.value, hit)
    {
      tried, hit := None, false;
      var server, refused, at := Read(request, expected, calm);
      if refused.Some? {
        return refused, tried, hit;
      }
      var now: nat :| true;
      var st := StatementFor(request, server, now);
      var edit := EditOf(st);
      if calm {
        Sound();
        CurrentEditLands(request, db, now);
        EditDecides(request, expected, db, now);
      }
      if edit.Err? {
        return Some(Err(Invalid(edit.error))), tried, hit;
      }
      if edit.value.None? {
        return Some(Ok(server)), tried, hit;
      }
      ghost var k;
      r, k, hit := WriteBack(request, expected, st, at, calm);
      tried := Some(k);
    }

    ghost predicate ReadSince(from: nat, server: Server)
      reads this
    {
      exists j :: from <= j < |dbs| && dbs[j].server == server
    }

    // What a finished call leaves: at most its last statement changed the row, and only on success.
    ghost predicate Settled(request: Request, expected: Option<nat>, from: nat, r: Result<Server, ServiceError>,
        tries: seq<nat>, won: Option<nat>)
      reads this
    {
      && (won.None? ==> AllLost(dbs, sts, request, from, tries))
      && (won.None? && r.Ok? ==> Granted(request, r.value) && ReadSince(from, r.value))
      && (won.Some? ==>
            && |tries| > 0 && won.value == tries[|tries| - 1] && AllLost(dbs, sts, request, from, tries[..|tries| - 1])
            && r.Ok? && Mine(sts, request, from, won.value) && Landed(request, won.value)
            && SameClientColumns(r.value, dbs[won.value + 1].server)
            && (expected.Some? ==> dbs[won.value].server.generation == expected.value))
    }

    // One more attempt after those in `before`.
    method Round(request: Request, expected: Option<nat>, calm: bool, ghost from: nat, ghost before: seq<nat>)
      returns (r: Option<Result<Server, ServiceError>>, ghost tries: seq<nat>, ghost won: Option<nat>)
      requires Valid() && from <= |sts| && AllLost(dbs, sts, request, from, before)
      modifies this
      ensures Valid() && old(dbs) <= dbs && old(sts) <= sts
      ensures r.Some? ==> Settled(request, expected, from, r.value, tries, won)
      ensures r.Some? && r.value.Err? ==>
          r.value.error != ConcurrentUpdate && (r.value.error.GenerationConflict? ==> expected.Some?)
      ensures r.None? ==> AllLost(dbs, sts, request, from, tries) && |tries| == |before| + 1
      ensures |tries| <= |before| + 1 && (r.None? ==> expected.None?)
      ensures r.Some? && expected.None? && won.None? ==> tries == before
      ensures calm ==> r.Some? && Undisturbed(request, expected, old(db), r.value, won.Some?)
    {
      ghost var tried, hit;
      r, tried, hit := Attempt(request, expected, calm);
      LostStays(old(dbs), old(sts), dbs, sts, request, from, before);
      tries, won := before, None;
      if tried.Some? {
        LostMore(dbs, sts, request, from, |old(sts)|, before, tried.value);
        tries := before + [tried.value];
      }
      if hit {
        won := tried;
      }
    }

    /** `set_desired_state`, `apply` and `archive`: read, edit a copy, and write it back
        only if the row still has the generation that was read; three attempts.
        `tries` are the statements this call sent, `won` the one that changed the row. */
    method Change(request: Request, expected: Option<nat>, calm: bool)
      returns (r: Result<Server, ServiceError>, ghost tries: seq<nat>, ghost won: Option<nat>)
      requires Valid()
      modifies this
      ensures Valid() && old(dbs) <= dbs && old(sts) <= sts
      ensures Settled(request, expected, |old(sts)|, r, tries, won)
      ensures r.Err? && r.error.GenerationConflict? ==> expected.Some?
      ensures |tries| <= 3 && (r == Err(ConcurrentUpdate) <==> expected.None? && |tries| == 3 && won.None?)
      ensures calm ==> Undisturbed(request, expected, old(db), r, won.Some?)
    {
      tries, won := [], None;
      for attempt := 0 to 3
        invariant Valid() && old(dbs) <= dbs && old(sts) <= sts
        invariant AllLost(dbs, sts, request, |old(sts)|, tries) && |tries| == attempt
        invariant attempt > 0 ==> expected.None?
        invariant calm ==> attempt == 0 && db == old(db)
      {
        var result;
        result, tries, won := Round(request, expected, calm, |old(sts)|, tries);
        if result.Some? {
          return result.value, tries, won;
        }
      }
      return Err(ConcurrentUpdate), tries, None;
    }

    /** `create_for_running_server`: the insert and the token bump are one transaction. */
    method CreateForRunningServer(now: nat) returns (r: Option<Instance>)
      requires Valid()
      modifies this
      ensures Valid() && db == Exec(old(db), CreateInstance(now))
      ensures r.Some? <==> old(db.server.desired == Running && !HasActive(db.instances))
      ensures r.Some? ==>
          db.instances == old(db.instances) + [r.value] && r.value.token == old(db.server.nextToken)
          && r.value.source == old(db.server.current)
      ensures r.Some? ==>
          forall k ::
          0 <= k < |old(db.instances)| ==> old(db.instances)[k].token < r.value.token && !old(db.instances)[k].Active()
      ensures r.None? ==> db == old(db)
    {
      RunKeepsPromises(dbs, sts, |sts|);
      var tx := db;
      var at := Max(now, Max(tx.server.updatedAt, LatestUpdate(tx.instances)));
      if tx.server.desired != Running || HasActive(tx.instances) {
        Record(CreateInstance(now), db);
        return None;
      }
      var row := Instance(tx.server.generation, tx.server.spec, tx.server.nextToken, tx.server.current,
                          None, false, None, None, None, None, None, at, at);
      tx := tx.(instances := tx.instances + [row]);
      tx := tx.(server := tx.server.(nextToken := tx.server.nextToken + 1));
      Record(CreateInstance(now), tx);
      return Some(row);
    }

    /** `SnapshotRepository::commit`: check the fence, insert the snapshot, then move the
        instance and the server to it; any failure rolls everything back. */
    method Commit(i: nat, token: nat, id: SnapshotId, now: nat, calm: bool) returns (r: Result<bool, CommitError>)
      requires Valid()
      modifies this
      ensures Valid() && old(dbs) <= dbs && old(sts) <= sts
      ensures r == Err(Aborted) ==> db == old(db)
      ensures r != Err(Aborted) ==> db == Exec(old(db), Statement.Commit(i, token, id, now))
      ensures r != Err(Aborted) ==>
          var outcome := Outcome(old(db), i, token, id);
          && (r == Ok(true) <==> outcome == Published) && (r == Ok(false) <==> outcome == AlreadyPublished)
          && (forall why :: r == Err(Rejected(why)) <==> outcome == why && why !in {Published, AlreadyPublished})
      ensures r == Ok(true) ==>
          i == |db.instances| - 1 && db.server.current == Some(id) && db.instances[i].result == Some(id)
      ensures r == Ok(true) ==> db.instances[i].token == token && NewestPublisher(db.instances, |db.instances|, i)
      ensures r != Ok(true) ==> db == old(db)
      ensures calm ==> r != Err(Aborted)
    {
      var st := Statement.Commit(i, token, id, now);
      var lost: bool := *;
      if lost && !calm {
        return Err(Aborted);
      }
      var refused := Refusal(i, token, id);
      if refused.Some? {
        Record(st, db);
        return Answer(refused.value);
      }
      var tx := db;
      var row := tx.instances[i];
      var at := Max(now, Max(row.updatedAt, tx.server.updatedAt));
      tx := tx.(snapshots := tx.snapshots + [Snapshot(id, i, token, at)]);
      tx := tx.(instances := tx.instances[i := row.(result := Some(id),
          updatedAt := Max(at, Max(row.updatedAt, row.createdAt)))]);
      tx := tx.(server := tx.server.(current := Some(id),
          updatedAt := Max(at, Max(tx.server.updatedAt, tx.server.createdAt))));
      lost := *;
      if lost && !calm {
        return Err(Aborted);
      }
      Record(st, tx);
      Newest(i);
      return Ok(true);
    }

    // The checks before the first write, in their order, and the UNIQUE clauses of `snapshots`.
    method Refusal(i: nat, token: nat, id: SnapshotId) returns (why: Option<Publication>)
      ensures why == (if Outcome(db, i, token, id) == Published then None else Some(Outcome(db, i, token, id)))
    {
      if !ValidSnapshotId(id) {
        return Some(InvalidId);
      }
      if i >= |db.instances| {
        return Some(NoSuchInstance);
      }
      var row := db.instances[i];
      if row.token != token || row.terminatedAt.Some? {
        return Some(Stale);
      }
      if row.result.Some? {
        return Some(if row.result.value == id then AlreadyPublished else PublishedAnother);
      }
      for m := 0 to |db.snapshots|
        invariant forall n :: 0 <= n < m ==> db.snapshots[n].id != id && db.snapshots[n].token != token
      {
        if db.snapshots[m].id == id || db.snapshots[m].token == token {
          return Some(DuplicateRow);
        }
      }
      return None;
    }

    lemma Sound()
      requires Valid()
      ensures ServerChecks(db.server)
    {
      RunKeepsPromises(dbs, sts, |sts|);
    }

    lemma Newest(i: nat)
      requires Valid() && i < |db.instances| && db.instances[i].Active()
      ensures i == |db.instances| - 1
    {
      RunKeepsPromises(dbs, sts, |sts|);
      ActiveIsLast(db.server.nextToken, db.instances, i);
    }
  }
}
