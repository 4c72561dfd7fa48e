/** Akamai machines: adopt or create by deterministic label, cap, delete, reap.

    A create or delete takes effect before its answer or never, and the answer
    may be lost either way. Machines without this deployment's tags come and go
    as their owners please; tagged machines vanish only through this code if
    `lossless` is set, and at any time if it is not. */
module Provider {
  import opened Domain

  // `mcserver-<compute id>`, or anything else.
  datatype Name = Of(compute: nat) | Foreign

  // `tagged`: carries both the managed tag and the scope tag.
  datatype Vm = Vm(name: Name, tagged: bool)

  datatype Row = Row(machine: Option<nat>, prepared: bool, shutdown: bool, terminated: bool)

  datatype ProviderError = Unavailable | DuplicateLabel | OwnershipMismatch | InstanceLost | LimitReached

  function Labelled(vms: map<nat, Vm>, k: nat): set<nat> {
    set id | id in vms && vms[id].name == Of(k)
  }

  // `is_owned_by`
  function Owned(vms: map<nat, Vm>, k: nat): set<nat> {
    set id | id in vms && vms[id] == Vm(Of(k), true)
  }

  function Managed(vms: map<nat, Vm>): set<nat> {
    set id | id in vms && vms[id].tagged
  }

  // Tagged machines of `b` were already there in `a`.
  ghost predicate Shrinks(a: map<nat, Vm>, b: map<nat, Vm>) {
    forall id :: id in b && b[id].tagged ==> id in a && a[id] == b[id]
  }

  // Ids are never handed out twice.
  ghost predicate OldIds(a: map<nat, Vm>, issued: nat, b: map<nat, Vm>) {
    forall id :: id in b && id < issued ==> id in a && b[id] == a[id]
  }

  lemma {:induction false} SubsetSize(a: set<nat>, b: set<nat>)
    requires a <= b
    ensures |a| <= |b|
    decreases b
  {
    if b != {} {
      var x :| x in b;
      SubsetSize(a - {x}, b - {x});
      assert x !in a ==> a - {x} == a;
    }
  }

  lemma ShrinksSets(a: map<nat, Vm>, b: map<nat, Vm>)
    requires Shrinks(a, b)
    ensures |Managed(b)| <= |Managed(a)|
    ensures forall k :: Owned(b, k) <= Owned(a, k)
  {
    SubsetSize(Managed(b), Managed(a));
  }

  // At most one machine per compute row.
  ghost predicate Unique(vms: map<nat, Vm>) {
    forall a, b :: a in vms && b in vms && vms[a].tagged && vms[b] == vms[a] && vms[a].name.Of? ==> a == b
  }

  ghost predicate Issued(vms: map<nat, Vm>, rows: seq<Row>, issued: nat) {
    && (forall id ::
        id in vms ==> id < issued && (vms[id].tagged && vms[id].name.Of? ==> vms[id].name.compute < |rows|))
    && (forall k :: 0 <= k < |rows| && rows[k].machine.Some? ==> rows[k].machine.value < issued)
  }

  // With no machine lost, the record and the label always name the same machine.
  ghost predicate Tracked(vms: map<nat, Vm>, rows: seq<Row>) {
    forall k :: 0 <= k < |rows| ==> TrackedRow(vms, k, rows[k])
  }

  ghost predicate TrackedRow(vms: map<nat, Vm>, k: nat, row: Row) {
    && (row.machine.Some? ==> Owned(vms, k) <= {row.machine.value})
    && (row.machine.Some? && !row.shutdown ==> row.machine.value in Owned(vms, k))
    && (row.terminated ==> row.shutdown && Owned(vms, k) == {})
  }

  // `find_instance_by_label`
  function ByLabel(vms: map<nat, Vm>, k: nat): (r: Result<Option<nat>, ProviderError>)
    ensures r == Ok(None) <==> Labelled(vms, k) == {}
    ensures forall id :: r == Ok(Some(id)) <==> Labelled(vms, k) == {id}
  {
    var found := Labelled(vms, k);
    if found == {} then Ok(None)
    else if id :| id in found && found == {id} then Ok(Some(id))
    else Err(DuplicateLabel)
  }

  // Which machine a delete takes away.
  function Target(vms: map<nat, Vm>, k: nat, machine: Option<nat>): (r: Result<Option<nat>, ProviderError>) {
    if machine.Some? then
      if machine.value !in vms then Ok(None)
      else if vms[machine.value] == Vm(Of(k), true) then Ok(machine)
      else Err(OwnershipMismatch)
    else
      var found := ByLabel(vms, k);
      if found.Err? || found.value.None? then found
      else if vms[found.value.value].tagged then found
      else Err(OwnershipMismatch)
  }

  // A lone machine under the label belongs to someone else.
  ghost predicate ForeignLabel(vms: map<nat, Vm>, k: nat) {
    exists id :: Labelled(vms, k) == {id} && id in vms && !vms[id].tagged
  }

  /** What an undisturbed search under the label ends with: the one machine there, a new one if
      there is none and one may be made, or the reason, and then nothing has changed. */
  ghost predicate FoundOrMade(a: map<nat, Vm>, row: Row, k: nat, max: nat, r: Result<nat, ProviderError>,
      b: map<nat, Vm>) {
    var found := Labelled(a, k);
    && (r == Err(DuplicateLabel) <==> |found| > 1)
    && (r == Err(OwnershipMismatch) <==> ForeignLabel(a, k))
    && (r == Err(InstanceLost) <==> found == {} && row.prepared)
    && (r == Err(LimitReached) <==> found == {} && !row.prepared && |Managed(a)| >= max)
    && r != Err(Unavailable)
    && (r.Err? ==> b == a)
    && (r.Ok? && found != {} ==> found == {r.value} && Owned(a, k) == {r.value} && b == a)
    && (r.Ok? && found == {} ==> r.value !in a && b == a[r.value := Vm(Of(k), true)])
  }

  // The same for a row that may have a machine on record.
  ghost predicate EnsuredMachine(a: map<nat, Vm>, row: Row, k: nat, max: nat, r: Result<nat, ProviderError>,
      b: map<nat, Vm>) {
    if row.machine.Some? && row.machine.value in a then
      && (r == Ok(row.machine.value) <==> row.machine.value in Owned(a, k))
      && (r == Err(OwnershipMismatch) <==> row.machine.value !in Owned(a, k))
      && b == a
    else FoundOrMade(a, row, k, max, r, b)
  }

  lemma LabelSize(vms: map<nat, Vm>, k: nat)
    ensures ByLabel(vms, k).Err? <==> |Labelled(vms, k)| > 1
  {
    var found := Labelled(vms, k);
    if found != {} {
      var id :| id in found;
      assert found == {id} + (found - {id});
      if |found| == 1 {
        assert |found - {id}| == 0;
      }
    }
  }

  // A machine with this row's label and tags that the record does not lead to.
  ghost predicate Stray(vms: map<nat, Vm>, k: nat, machine: Option<nat>) {
    machine.Some? && machine.value !in vms && Owned(vms, k) != {}
  }

  lemma TargetIsOwned(vms: map<nat, Vm>, k: nat, machine: Option<nat>)
    requires Target(vms, k, machine).Ok?
    ensures var target := Target(vms, k, machine).value;
            && (target.Some? ==> target.value in vms && vms[target.value] == Vm(Of(k), true))
            && (machine.Some? && machine.value in vms ==> target == machine)
  {
    var target := Target(vms, k, machine).value;
    if machine.None? && target.Some? {
      assert target.value in Labelled(vms, k);
    }
  }

  // What stands against deleting the machine of a row: others' machines, or too many.
  ghost predicate Hindered(vms: map<nat, Vm>, k: nat, machine: Option<nat>, why: ProviderError) {
    match why
    case OwnershipMismatch =>
      if machine.Some? then machine.value in vms && machine.value !in Owned(vms, k) else ForeignLabel(vms, k)
    case DuplicateLabel => machine.None? && |Labelled(vms, k)| > 1
    case _ => false
  }

  /** The delete fails exactly for those reasons, and otherwise takes away the recorded machine,
      or all there is under the label if none is recorded. */
  lemma TargetIff(vms: map<nat, Vm>, k: nat, machine: Option<nat>)
    ensures forall why :: Target(vms, k, machine) == Err(why) <==> Hindered(vms, k, machine, why)
    ensures Target(vms, k, machine).Ok? ==>
              (if Target(vms, k, machine).value.Some? then {Target(vms, k, machine).value.value} else {})
              == if machine.Some? then Owned(vms, k) * {machine.value} else Owned(vms, k)
  {
    LabelSize(vms, k);
    assert Owned(vms, k) <= Labelled(vms, k);
    var found := ByLabel(vms, k);
    if machine.None? && found.Ok? && found.value.Some? {
      var id := found.value.value;
      assert id in Labelled(vms, k);
      assert Owned(vms, k) == if vms[id].tagged then {id} else {};
    }
  }

  /** An undisturbed delete leaves nothing under the label, except exactly when the
      recorded machine is gone and an unrecorded replacement stands in its place. */
  lemma DeleteLeavesStrayOnly(vms: map<nat, Vm>, k: nat, machine: Option<nat>)
    requires Unique(vms) && Target(vms, k, machine).Ok?
    ensures var target := Target(vms, k, machine).value;
            var left := if target.Some? then vms - {target.value} else vms;
            Owned(left, k) != {} <==> Stray(vms, k, machine)
  {
    var target := Target(vms, k, machine).value;
    var left := if target.Some? then vms - {target.value} else vms;
    assert Owned(left, k) <= Owned(vms, k);
    assert Owned(vms, k) <= Labelled(vms, k);
    if target.Some? {
      assert target.value in Owned(vms, k);
      forall id | id in Owned(vms, k) ensures id == target.value {
        assert vms[id] == vms[target.value];
      }
    }
  }

  // Only machines of row `k` may be new.
  ghost predicate GrowsOnly(a: map<nat, Vm>, b: map<nat, Vm>, k: nat) {
    forall id :: id in b && b[id].tagged && b[id].name != Of(k) ==> id in a && a[id] == b[id]
  }

  // What others may do keeps every tagged machine in its place.
  lemma ForeignKeeps(vms: map<nat, Vm>, vms': map<nat, Vm>, rows: seq<Row>)
    requires Shrinks(vms, vms') && Shrinks(vms', vms)
    ensures Tracked(vms, rows) ==> Tracked(vms', rows)
  {
    forall k | 0 <= k < |rows| && TrackedRow(vms, k, rows[k]) ensures TrackedRow(vms', k, rows[k]) {
      assert Owned(vms', k) == Owned(vms, k);
    }
  }

  lemma ForeignLess(vms: map<nat, Vm>, id: nat, rows: seq<Row>)
    requires id in vms
    ensures !vms[id].tagged && Tracked(vms, rows) ==> Tracked(vms - {id}, rows)
  {
    if !vms[id].tagged {
      ForeignKeeps(vms, vms - {id}, rows);
    }
  }

  // A machine leaves after a shutdown was requested for its row.
  lemma RemovedKeeps(vms: map<nat, Vm>, id: nat, rows: seq<Row>, k: nat)
    requires id in vms && vms[id] == Vm(Of(k), true) && k < |rows| && rows[k].shutdown
    ensures Tracked(vms, rows) ==> Tracked(vms - {id}, rows)
  {
    forall j | 0 <= j < |rows| && TrackedRow(vms, j, rows[j]) ensures TrackedRow(vms - {id}, j, rows[j]) {
      assert Owned(vms - {id}, j) == Owned(vms, j) - {id};
      assert j != k ==> id !in Owned(vms, j);
    }
  }

  // Writing down the machine found under the label.
  lemma RecordedKeeps(vms: map<nat, Vm>, rows: seq<Row>, k: nat, id: nat)
    requires Unique(vms) && k < |rows|
    ensures Tracked(vms, rows) && id in Owned(vms, k) && !rows[k].terminated ==>
        Tracked(vms, rows[k := rows[k].(machine := Some(id))])
  {
    var rows' := rows[k := rows[k].(machine := Some(id))];
    forall j | 0 <= j < |rows| && id in Owned(vms, k) && TrackedRow(vms, j, rows[j]) && !rows[k].terminated
        ensures TrackedRow(vms, j, rows'[j]) {
      forall x | x in Owned(vms, k) ensures x == id {
        assert vms[x] == vms[id];
      }
    }
  }

  lemma RecordedExists(vms: map<nat, Vm>, rows: seq<Row>, k: nat)
    requires k < |rows|
    ensures Tracked(vms, rows) && rows[k].machine.Some? && !rows[k].shutdown ==> rows[k].machine.value in vms
  {}

  // A tagged machine that an active row points to.
  ghost predicate Accounted(vms: map<nat, Vm>, rows: seq<Row>, id: nat)
    requires id in vms
  {
    && vms[id].name.Of? && vms[id].name.compute < |rows|
    && !rows[vms[id].name.compute].terminated && rows[vms[id].name.compute].machine == Some(id)
  }

  ghost predicate Settled(vms: map<nat, Vm>, rows: seq<Row>, todo: set<nat>) {
    forall id :: id in vms && vms[id].tagged && id !in todo ==> Accounted(vms, rows, id)
  }

  // What is left of the machines that were listed when `first` was the next id.
  ghost predicate Listing(listed: map<nat, Vm>, first: nat, vms: map<nat, Vm>, issued: nat, todo: set<nat>,
      lossless: bool) {
    && Shrinks(listed, vms) && todo <= Managed(listed)
    && first <= issued && OldIds(listed, first, vms) && (forall id :: id in listed ==> id < first)
    && (lossless ==> forall id :: id in todo ==> id in vms)
  }

  ghost predicate OnlyMachines(rows: seq<Row>, rows': seq<Row>) {
    |rows| == |rows'| && forall k :: 0 <= k < |rows| ==> rows'[k] == rows[k].(machine := rows'[k].machine)
  }

  lemma ReapSettles(vms: map<nat, Vm>, rows: seq<Row>, vms': map<nat, Vm>, rows': seq<Row>, todo: set<nat>, id: nat,
      ok: bool)
    requires Settled(vms, rows, todo) && |rows'| == |rows| && (vms' == vms || vms' == vms - {id})
    requires forall k ::
        0 <= k < |rows| ==> rows'[k] == rows[k] || (rows[k].machine.None? && rows'[k] == rows[k].(machine := Some(id)))
    requires ok && id in vms' && vms'[id].tagged ==> Accounted(vms', rows', id)
    ensures ok ==> Settled(vms', rows', todo - {id})
    ensures OnlyMachines(rows, rows')
  {}

  // What to do with a listed machine.
  predicate Keep(vm: Vm, rows: seq<Row>, id: nat) {
    && vm.name.Of? && vm.name.compute < |rows| && !rows[vm.name.compute].terminated
    && (rows[vm.name.compute].machine.None? || rows[vm.name.compute].machine == Some(id))
  }

  // With no machine lost there is nothing of ours to reap.
  lemma TrackedIsKept(vms: map<nat, Vm>, rows: seq<Row>, id: nat)
    requires id in vms && vms[id].tagged && (vms[id].name.Of? ==> vms[id].name.compute < |rows|)
    ensures Tracked(vms, rows) && vms[id].name.Of? ==> Keep(vms[id], rows, id)
  {
    if Tracked(vms, rows) && vms[id].name.Of? {
      var k := vms[id].name.compute;
      assert id in Owned(vms, k) && TrackedRow(vms, k, rows[k]);
    }
  }

  lemma UnlabelledLess(vms: map<nat, Vm>, rows: seq<Row>, id: nat)
    requires id in vms
    ensures vms[id].name == Foreign && Tracked(vms, rows) ==> Tracked(vms - {id}, rows)
    ensures vms[id].name == Foreign ==> forall k :: Owned(vms - {id}, k) == Owned(vms, k)
  {
    if vms[id].name == Foreign {
      forall k ensures Owned(vms - {id}, k) == Owned(vms, k) {}
      forall k | 0 <= k < |rows| && TrackedRow(vms, k, rows[k]) ensures TrackedRow(vms - {id}, k, rows[k]) {}
    }
  }

  // Once a shutdown or prepared data is on record it stays there, and no machine is created for
  // that row again.
  ghost predicate Final(vms: map<nat, Vm>, rows: seq<Row>, vms': map<nat, Vm>, rows': seq<Row>) {
    && |rows| <= |rows'|
    && forall k :: 0 <= k < |rows| ==> FinalRow(vms, rows[k], vms', rows'[k], k)
  }

  ghost predicate FinalRow(vms: map<nat, Vm>, row: Row, vms': map<nat, Vm>, row': Row, k: nat) {
    && (row.shutdown ==> row'.shutdown) && (row.prepared ==> row'.prepared)
    && (row.shutdown || row.prepared ==> Owned(vms', k) <= Owned(vms, k))
    && (row.terminated ==> row'.terminated)
  }

  lemma FinalChains(a: map<nat, Vm>, r: seq<Row>, b: map<nat, Vm>, s: seq<Row>, c: map<nat, Vm>, t: seq<Row>)
    requires Final(a, r, b, s) && Final(b, s, c, t)
    ensures Final(a, r, c, t)
  {
    forall k | 0 <= k < |r| ensures FinalRow(a, r[k], c, t[k], k) {
      assert FinalRow(a, r[k], b, s[k], k) && FinalRow(b, s[k], c, t[k], k);
    }
  }

  lemma AtMostOne(vms: map<nat, Vm>, k: nat)
    requires Unique(vms)
    ensures |Owned(vms, k)| <= 1
  {
    if id :| id in Owned(vms, k) {
      forall x | x in Owned(vms, k) ensures x == id {
        assert vms[x] == vms[id];
      }
      assert Owned(vms, k) == {id};
    } else {
      assert Owned(vms, k) == {};
    }
  }

  lemma AddedIsUnique(vms: map<nat, Vm>, id: nat, k: nat)
    requires Unique(vms) && id !in vms && Owned(vms, k) == {}
    ensures Unique(vms[id := Vm(Of(k), true)])
    ensures |Managed(vms[id := Vm(Of(k), true)])| <= |Managed(vms)| + 1
  {
    assert Managed(vms[id := Vm(Of(k), true)]) == Managed(vms) + {id};
    forall a | a in vms ensures vms[a] != Vm(Of(k), true) {
      assert a !in Owned(vms, k);
    }
  }

  lemma AddedIsTracked(vms: map<nat, Vm>, rows: seq<Row>, id: nat, k: nat)
    requires id !in vms && k < |rows| && !rows[k].shutdown
    ensures Tracked(vms, rows) && rows[k].machine.None? ==> Tracked(vms[id := Vm(Of(k), true)], rows)
  {
    var vms' := vms[id := Vm(Of(k), true)];
    forall j | 0 <= j < |rows| && rows[k].machine.None? && TrackedRow(vms, j, rows[j])
        ensures TrackedRow(vms', j, rows[j]) {
      assert j != k ==> Owned(vms', j) == Owned(vms, j);
    }
  }

  // ------------------------------------------------------------- whole runs

  /** What the provider holds, how many ids it has handed out, and the compute rows. */
  datatype Cloud = Cloud(vms: map<nat, Vm>, issued: nat, rows: seq<Row>)

  datatype Change =
    | AddRow
    | Appear(name: Name)
    | Vanish(id: nat)
    | Create(k: nat)
    | Record(k: nat, id: nat)
    | Prepare(k: nat)
    | Shutdown(k: nat)
    | Remove(id: nat)
    | Terminate(k: nat)

  ghost predicate Coherent(c: Cloud, lossless: bool) {
    Unique(c.vms) && Issued(c.vms, c.rows, c.issued) && (lossless ==> Tracked(c.vms, c.rows))
  }

  // What the control plane has found out before it makes the change; others may do what they like
  // to machines that are not tagged.
  ghost predicate CanChange(c: Cloud, e: Change, max: nat, lossless: bool) {
    match e
    case AddRow => true
    case Appear(_) => true
    case Vanish(id) => id in c.vms && (lossless ==> !c.vms[id].tagged)
    case Create(k) =>
      && k < |c.rows| && !c.rows[k].shutdown && !c.rows[k].prepared
      && Owned(c.vms, k) == {} && |Managed(c.vms)| < max
    case Record(k, id) =>
      && k < |c.rows| && !c.rows[k].terminated && id < c.issued
      && (id in c.vms ==> c.vms[id] == Vm(Of(k), true)) && (lossless ==> id in c.vms)
    case Prepare(k) => k < |c.rows|
    case Shutdown(k) => k < |c.rows|
    case Remove(id) =>
      && id in c.vms && c.vms[id].tagged
      && (c.vms[id].name.Of? && c.vms[id].name.compute < |c.rows| ==>
            c.rows[c.vms[id].name.compute].shutdown || !Keep(c.vms[id], c.rows, id))
    case Terminate(k) =>
      && k < |c.rows| && c.rows[k].shutdown
      && (if c.rows[k].machine.Some? then c.rows[k].machine.value !in c.vms else Owned(c.vms, k) == {})
  }

  function Changed(c: Cloud, e: Change): Cloud {
    match e
    case AddRow => c.(rows := c.rows + [Row(None, false, false, false)])
    case Appear(name) => c.(vms := c.vms[c.issued := Vm(name, false)], issued := c.issued + 1)
    case Vanish(id) => c.(vms := c.vms - {id})
    case Create(k) => c.(vms := c.vms[c.issued := Vm(Of(k), true)], issued := c.issued + 1)
    case Record(k, id) => if k < |c.rows| then c.(rows := c.rows[k := c.rows[k].(machine := Some(id))]) else c
    case Prepare(k) => if k < |c.rows| then c.(rows := c.rows[k := c.rows[k].(prepared := true)]) else c
    case Shutdown(k) => if k < |c.rows| then c.(rows := c.rows[k := c.rows[k].(shutdown := true)]) else c
    case Remove(id) => c.(vms := c.vms - {id})
    case Terminate(k) => if k < |c.rows| then c.(rows := c.rows[k := c.rows[k].(terminated := true)]) else c
  }

  ghost predicate ChangeAt(cs: seq<Cloud>, es: seq<Change>, k: nat, max: nat, lossless: bool)
    requires k < |es| < |cs|
  {
    CanChange(cs[k], es[k], max, lossless) && cs[k + 1] == Changed(cs[k], es[k])
  }

  // No rows yet, and whatever foreign machines there are.
  ghost predicate Blank(c: Cloud) {
    c.rows == [] && forall id :: id in c.vms ==> id < c.issued && !(c.vms[id].tagged && c.vms[id].name.Of?)
  }

  ghost predicate Run(cs: seq<Cloud>, es: seq<Change>, max: nat, lossless: bool) {
    && |cs| == |es| + 1 && Blank(cs[0])
    && forall k :: 0 <= k < |es| ==> ChangeAt(cs, es, k, max, lossless)
  }

  lemma RowKeeps(vms: map<nat, Vm>, rows: seq<Row>, k: nat, row: Row)
    requires k < |rows| && (Tracked(vms, rows) ==> TrackedRow(vms, k, row))
    ensures Tracked(vms, rows) ==> Tracked(vms, rows[k := row])
  {}

  lemma MachineChange(c: Cloud, e: Change, max: nat, lossless: bool)
    requires Coherent(c, lossless) && CanChange(c, e, max, lossless)
        && (e.Appear? || e.Vanish? || e.Create? || e.Remove?)
    ensures Coherent(Changed(c, e), lossless)
  {
    match e
    case Appear(name) => ForeignKeeps(c.vms, Changed(c, e).vms, c.rows);
    case Vanish(id) => ForeignLess(c.vms, id, c.rows);
    case Create(k) =>
      AddedIsUnique(c.vms, c.issued, k);
      RecordedExists(c.vms, c.rows, k);
      AddedIsTracked(c.vms, c.rows, c.issued, k);
    case Remove(id) =>
      TrackedIsKept(c.vms, c.rows, id);
      UnlabelledLess(c.vms, c.rows, id);
      if c.vms[id].name.Of? && c.rows[c.vms[id].name.compute].shutdown {
        RemovedKeeps(c.vms, id, c.rows, c.vms[id].name.compute);
      }
  }

  lemma RowChange(c: Cloud, e: Change, max: nat, lossless: bool)
    requires Coherent(c, lossless) && CanChange(c, e, max, lossless)
    requires e.AddRow? || e.Record? || e.Prepare? || e.Shutdown? || e.Terminate?
    ensures Coherent(Changed(c, e), lossless)
  {
    if e.Record? {
      RecordedKeeps(c.vms, c.rows, e.k, e.id);
    } else if !e.AddRow? {
      assert lossless ==> TrackedRow(c.vms, e.k, c.rows[e.k]);
      RowKeeps(c.vms, c.rows, e.k, Changed(c, e).rows[e.k]);
    }
  }

  lemma ChangeKeeps(c: Cloud, e: Change, max: nat, lossless: bool)
    requires Coherent(c, lossless) && CanChange(c, e, max, lossless)
    ensures Coherent(Changed(c, e), lossless)
  {
    if e.Appear? || e.Vanish? || e.Create? || e.Remove? {
      MachineChange(c, e, max, lossless);
    } else {
      RowChange(c, e, max, lossless);
    }
  }

  /** In every run, with restarts, lost answers and lost machines, at most one machine carries a
      row's label and tags; and if machines vanish only through this code, a terminated row has
      none left. */
  lemma {:induction false} OneMachinePerRow(cs: seq<Cloud>, es: seq<Change>, max: nat, lossless: bool, n: nat)
    requires Run(cs, es, max, lossless) && n < |cs|
    ensures Coherent(cs[n], lossless)
    ensures forall k :: 0 <= k < |cs[n].rows| ==> |Owned(cs[n].vms, k)| <= 1
    ensures lossless ==> forall k :: 0 <= k < |cs[n].rows| && cs[n].rows[k].terminated ==> Owned(cs[n].vms, k) == {}
  {
    RunIsCoherent(cs, es, max, lossless, n);
    forall k | 0 <= k < |cs[n].rows| ensures |Owned(cs[n].vms, k)| <= 1 {
      AtMostOne(cs[n].vms, k);
    }
    forall k | 0 <= k < |cs[n].rows| && lossless && cs[n].rows[k].terminated ensures Owned(cs[n].vms, k) == {} {
      assert TrackedRow(cs[n].vms, k, cs[n].rows[k]);
    }
  }

  lemma {:induction false} RunIsCoherent(cs: seq<Cloud>, es: seq<Change>, max: nat, lossless: bool, n: nat)
    requires Run(cs, es, max, lossless) && n < |cs|
    ensures Coherent(cs[n], lossless)
  {
    if n > 0 {
      RunIsCoherent(cs, es, max, lossless, n - 1);
      assert ChangeAt(cs, es, n - 1, max, lossless);
      ChangeKeeps(cs[n - 1], es[n - 1], max, lossless);
    }
  }

  /** From a moment at which the managed machines are within the cap, which is what a passing
      preflight establishes, they are at every later moment. */
  lemma {:induction false} CapHolds(cs: seq<Cloud>, es: seq<Change>, max: nat, lossless: bool, m: nat, n: nat)
    requires Run(cs, es, max, lossless) && m <= n < |cs| && |Managed(cs[m].vms)| <= max
    ensures |Managed(cs[n].vms)| <= max
  {
    if m < n {
      CapHolds(cs, es, max, lossless, m, n - 1);
      RunIsCoherent(cs, es, max, lossless, n - 1);
      assert ChangeAt(cs, es, n - 1, max, lossless);
      CapStep(cs[n - 1], es[n - 1], max, lossless);
    }
  }

  lemma CapStep(c: Cloud, e: Change, max: nat, lossless: bool)
    requires Coherent(c, lossless) && CanChange(c, e, max, lossless) && |Managed(c.vms)| <= max
    ensures |Managed(Changed(c, e).vms)| <= max
  {
    if e.Create? {
      AddedIsUnique(c.vms, c.issued, e.k);
    } else {
      ShrinksSets(c.vms, Changed(c, e).vms);
    }
  }

  /** Once a shutdown or prepared data is on record, it stays there and no machine is created for
      that row again. */
  lemma {:induction false} NoneAfterShutdown(cs: seq<Cloud>, es: seq<Change>, max: nat, lossless: bool, m: nat, n: nat)
    requires Run(cs, es, max, lossless) && m <= n < |cs|
    ensures Final(cs[m].vms, cs[m].rows, cs[n].vms, cs[n].rows)
  {
    if m < n {
      NoneAfterShutdown(cs, es, max, lossless, m, n - 1);
      RunIsCoherent(cs, es, max, lossless, n - 1);
      assert ChangeAt(cs, es, n - 1, max, lossless);
      FinalStep(cs[n - 1], es[n - 1], max, lossless);
      FinalChains(cs[m].vms, cs[m].rows, cs[n - 1].vms, cs[n - 1].rows, cs[n].vms, cs[n].rows);
    }
  }

  lemma FinalStep(c: Cloud, e: Change, max: nat, lossless: bool)
    requires Coherent(c, lossless) && CanChange(c, e, max, lossless)
    ensures Final(c.vms, c.rows, Changed(c, e).vms, Changed(c, e).rows)
  {
    if !e.Create? {
      ShrinksSets(c.vms, Changed(c, e).vms);
    }
  }

  // The recorded machine is lost, a replacement is created, its answer is lost, the row is stopped.
  lemma StrayExample() returns (cs: seq<Cloud>, es: seq<Change>)
    ensures Run(cs, es, 1, false) && |es| == 7
    ensures |cs[5].rows| == 1 && |cs[7].rows| == 1
    ensures Stray(cs[5].vms, 0, cs[5].rows[0].machine) && cs[7].rows[0].terminated && Owned(cs[7].vms, 0) != {}
  {
    es := [AddRow, Create(0), Record(0, 0), Vanish(0), Create(0), Shutdown(0), Terminate(0)];
    var c0 := Cloud(map[], 0, []);
    var c1 := Changed(c0, es[0]);
    var c2 := Changed(c1, es[1]);
    var c3 := Changed(c2, es[2]);
    var c4 := Changed(c3, es[3]);
    var c5 := Changed(c4, es[4]);
    var c6 := Changed(c5, es[5]);
    cs := [c0, c1, c2, c3, c4, c5, c6, Changed(c6, es[6])];
    assert Managed(c1.vms) == {} && Managed(c4.vms) == {};
    assert 1 in Owned(c5.vms, 0);
    forall k | 0 <= k < |es| ensures ChangeAt(cs, es, k, 1, false) {}
  }

  class Akamai {
    const max: nat
    const lossless: bool
    var vms: map<nat, Vm>
    var issued: nat
    var rows: seq<Row>
    ghost var cs: seq<Cloud>
    ghost var es: seq<Change>

    function View(): Cloud
      reads this
    {
      Cloud(vms, issued, rows)
    }

    // Everything that has happened is a run.
    ghost predicate Valid()
      reads this
    {
      Run(cs, es, max, lossless) && cs[|es|] == View() && Coherent(View(), lossless)
    }

    ghost predicate Capped()
      reads this
    {
      |Managed(vms)| <= max
    }

    // An empty database in front of whatever foreign machines there are.
    constructor (max: nat, lossless: bool, foreign: map<nat, Vm>, issued: nat)
      requires forall id :: id in foreign ==> id < issued && !(foreign[id].tagged && foreign[id].name.Of?)
      ensures Valid() && this.max == max && this.lossless == lossless && vms == foreign && rows == []
    {
      this.max, this.lossless, this.vms, this.issued, this.rows := max, lossless, foreign, issued, [];
      this.cs, this.es := [Cloud(foreign, issued, [])], [];
    }

    method Do(e: Change)
      requires Valid() && CanChange(View(), e, max, lossless)
      modifies this
      ensures Valid() && View() == Changed(old(View()), e)
      ensures old(cs) <= cs
    {
      ChangeKeeps(View(), e, max, lossless);
      var c := Changed(View(), e);
      ghost var cs', es' := cs + [c], es + [e];
      forall k | 0 <= k < |es'| ensures ChangeAt(cs', es', k, max, lossless) {
        if k < |es| {
          assert ChangeAt(cs, es, k, max, lossless);
        }
      }
      vms, issued, rows := c.vms, c.issued, c.rows;
      cs, es := cs', es';
    }

    // `create_for_instance`
    method NewRow() returns (k: nat)
      requires Valid()
      modifies this
      ensures Valid() && k == |old(rows)| && vms == old(vms) && rows == old(rows) + [Row(None, false, false, false)]
      ensures old(cs) <= cs
    {
      k := |rows|;
      Do(AddRow);
    }

    // What others do between two calls.
    method Pause(calm: bool)
      requires Valid()
      modifies this
      ensures rows == old(rows) && old(cs) <= cs
      ensures Valid() && Shrinks(old(vms), vms) && issued >= old(issued) && OldIds(old(vms), old(issued), vms)
      ensures lossless ==> Shrinks(vms, old(vms))
      ensures calm ==> vms == old(vms) && issued == old(issued)
    {
      if calm {
        return;
      }
      var n: nat :| true;
      while n > 0
        invariant rows == old(rows) && old(cs) <= cs
        invariant Valid() && Shrinks(old(vms), vms) && issued >= old(issued) && OldIds(old(vms), old(issued), vms)
        invariant lossless ==> Shrinks(vms, old(vms))
      {
        var id: nat :| true;
        if id in vms {
          if !lossless || !vms[id].tagged {
            Do(Vanish(id));
          }
        } else {
          var name: Name := *;
          Do(Appear(name));
        }
        n := n - 1;
      }
    }

    // POST: the machine may exist although no answer arrives.
    method Create(k: nat, calm: bool) returns (r: Option<nat>)
      requires Valid() && k < |rows| && Owned(vms, k) == {} && !rows[k].shutdown && !rows[k].prepared
          && |Managed(vms)| < max
      modifies this
      ensures rows == old(rows) && old(cs) <= cs
      ensures Valid() && GrowsOnly(old(vms), vms, k) && |Managed(vms)| <= |Managed(old(vms))| + 1
      ensures r.Some? ==> r.value in Owned(vms, k) && r.value < issued
      ensures calm ==> r.Some? && r.value !in old(vms) && vms == old(vms)[r.value := Vm(Of(k), true)]
    {
      r := None;
      var rejected := Fails(calm);
      if !rejected {
        var id := issued;
        AddedIsUnique(vms, id, k);
        Do(Change.Create(k));
        var lost := Fails(calm);
        if !lost {
          r := Some(id);
        }
      }
    }

    // `find_or_create_instance`
    method FindOrCreate(k: nat, calm: bool) returns (r: Result<nat, ProviderError>)
      requires Valid() && k < |rows| && !rows[k].shutdown
      modifies this
      ensures rows == old(rows) && old(cs) <= cs
      ensures Valid() && GrowsOnly(old(vms), vms, k)
      ensures rows[k].prepared ==> Shrinks(old(vms), vms)
      ensures |Managed(vms)| <= |Managed(old(vms))| || |Managed(vms)| <= max
      ensures r.Ok? ==> r.value in Owned(vms, k) && r.value < issued
      ensures calm ==> FoundOrMade(old(vms), rows[k], k, max, r, vms)
    {
      Pause(calm);
      ShrinksSets(old(vms), vms);
      var failed := Fails(calm);
      if failed {
        return Err(Unavailable);
      }
      LabelSize(vms, k);
      var found := ByLabel(vms, k);
      if found.Err? {
        return Err(found.error);
      }
      if found.value.Some? {
        var id := found.value.value;
        assert id in Labelled(vms, k);
        assert vms[id].tagged ==> Owned(vms, k) == {id};
        return if vms[id].tagged then Ok(id) else Err(OwnershipMismatch);
      }
      assert Owned(vms, k) <= Labelled(vms, k);
      if rows[k].prepared {
        return Err(InstanceLost);
      }
      ghost var seen := vms;
      Pause(calm);
      ShrinksSets(seen, vms);
      failed := Fails(calm);
      if failed {
        return Err(Unavailable);
      }
      if |Managed(vms)| >= max {
        return Err(LimitReached);
      }
      var id := Create(k, calm);
      return if id.Some? then Ok(id.value) else Err(Unavailable);
    }

    /** `ensure_for_instance` after the row exists: the recorded machine, or the one under
        the label, or a new one; and its id in the row. */
    method EnsureForInstance(k: nat, calm: bool) returns (r: Result<bool, ProviderError>)
      requires Valid() && k < |rows| && !rows[k].shutdown && !rows[k].terminated
      modifies this
      ensures old(cs) <= cs
      ensures Valid() && GrowsOnly(old(vms), vms, k)
      ensures |rows| == |old(rows)| && rows == old(rows)[k := old(rows)[k].(machine := rows[k].machine)]
      ensures old(rows)[k].prepared ==> Shrinks(old(vms), vms)
      ensures old(Capped()) ==> Capped()
      ensures r.Ok? ==> rows[k].machine.Some? && (r.value <==> rows != old(rows))
      ensures r.Ok? && lossless ==> Owned(vms, k) == {rows[k].machine.value}
      ensures calm ==> EnsuredMachine(old(vms), old(rows)[k], k, max,
                                      if r.Ok? then Ok(rows[k].machine.value) else Err(r.error), vms)
      ensures calm && r.Ok? ==> rows[k].machine.value in Owned(vms, k)
    {
      var id := Locate(k, calm);
      if id.Err? {
        return Err(id.error);
      }
      r := RecordMachine(k, id.value, calm);
    }

    method Locate(k: nat, calm: bool) returns (r: Result<nat, ProviderError>)
      requires Valid() && k < |rows| && !rows[k].shutdown
      modifies this
      ensures rows == old(rows) && old(cs) <= cs
      ensures Valid() && GrowsOnly(old(vms), vms, k)
      ensures rows[k].prepared ==> Shrinks(old(vms), vms)
      ensures |Managed(vms)| <= |Managed(old(vms))| || |Managed(vms)| <= max
      ensures r.Ok? ==> r.value in Owned(vms, k)
      ensures calm ==> EnsuredMachine(old(vms), rows[k], k, max, r, vms)
    {
      Pause(calm);
      ShrinksSets(old(vms), vms);
      var recorded := rows[k].machine;
      if recorded.Some? && recorded.value in vms {
        var mine := vms[recorded.value] == Vm(Of(k), true);
        return if mine then Ok(recorded.value) else Err(OwnershipMismatch);
      }
      r := FindOrCreate(k, calm);
    }

    // `record_provider_instance`
    method RecordMachine(k: nat, id: nat, calm: bool) returns (r: Result<bool, ProviderError>)
      requires Valid() && k < |rows| && !rows[k].shutdown && !rows[k].terminated && id in Owned(vms, k)
      modifies this
      ensures old(cs) <= cs
      ensures Valid() && Shrinks(old(vms), vms) && |Managed(vms)| <= |Managed(old(vms))|
      ensures |rows| == |old(rows)| && rows == old(rows)[k := old(rows)[k].(machine := rows[k].machine)]
      ensures r.Ok? ==> rows[k].machine == Some(id) && (r.value <==> rows != old(rows))
      ensures r.Ok? && lossless ==> Owned(vms, k) == {id}
      ensures calm ==> r.Ok? && vms == old(vms)
    {
      Pause(calm);
      ShrinksSets(old(vms), vms);
      var failed := Fails(calm);
      if failed {
        return Err(Unavailable);
      }
      if rows[k].machine != Some(id) {
        Do(Record(k, id));
        OnlyRecorded(k, id);
        return Ok(true);
      }
      OnlyRecorded(k, id);
      return Ok(false);
    }

    lemma OnlyRecorded(k: nat, id: nat)
      requires Valid() && k < |rows| && rows[k].machine == Some(id)
      ensures lossless ==> Owned(vms, k) <= {id}
    {
      assert lossless ==> TrackedRow(vms, k, rows[k]);
    }

    // DELETE: the machine may be gone although no answer arrives.
    method Remove(id: nat, k: nat, calm: bool) returns (ok: bool)
      requires Valid() && k < |rows| && rows[k].shutdown && id in vms && vms[id] == Vm(Of(k), true)
      modifies this
      ensures rows == old(rows) && issued == old(issued) && old(cs) <= cs
      ensures Valid() && (vms == old(vms) || vms == old(vms) - {id})
      ensures ok ==> id !in vms
      ensures calm ==> ok && vms == old(vms) - {id}
    {
      var rejected := Fails(calm);
      if !rejected {
        Do(Change.Remove(id));
        var lost := Fails(calm);
        ok := !lost;
      } else {
        ok := false;
      }
    }

    // `request_shutdown`
    method RequestShutdown(k: nat)
      requires Valid() && k < |rows|
      modifies this
      ensures Valid() && vms == old(vms) && rows == old(rows)[k := old(rows)[k].(shutdown := true)]
      ensures old(cs) <= cs
    {
      Do(Shutdown(k));
    }

    /** `delete`: shutdown on record, machine away, row terminated. `at` is what the provider
        held when the machine was looked up. */
    method Delete(k: nat, calm: bool) returns (r: Result<bool, ProviderError>, ghost at: map<nat, Vm>)
      requires Valid() && k < |rows| && !rows[k].terminated
      modifies this
      ensures old(cs) <= cs
      ensures Valid() && Shrinks(old(vms), vms) && |rows| == |old(rows)|
      ensures rows == old(rows)[k := old(rows)[k].(shutdown := true, terminated := r.Ok?)]
      ensures r.Ok? && !Stray(at, k, old(rows)[k].machine) ==> Owned(vms, k) == {}
      ensures r.Ok? && lossless ==> Owned(vms, k) == {}
      ensures calm ==> at == old(vms)
      ensures calm ==> forall why :: r == Err(why) <==> Hindered(old(vms), k, old(rows)[k].machine, why)
      ensures calm && r.Ok? ==>
          var machine := old(rows)[k].machine;
          vms == old(vms) - if machine.Some? then Owned(old(vms), k) * {machine.value} else Owned(old(vms), k)
      ensures calm && r.Ok? ==> (Owned(vms, k) != {} <==> Stray(old(vms), k, old(rows)[k].machine))
    {
      RequestShutdown(k);
      Pause(calm);
      at := vms;
      r := Discard(k, calm);
      if r.Ok? {
        ShrinksSets(at, vms);
        ghost var left := vms;
        var ok := Terminate(k, calm);
        ShrinksSets(left, vms);
        r := if ok then Ok(true) else Err(Unavailable);
      }
    }

    // Find the machine of the row, and take it away.
    method Discard(k: nat, calm: bool) returns (r: Result<bool, ProviderError>)
      requires Valid() && k < |rows| && rows[k].shutdown
      modifies this
      ensures old(cs) <= cs
      ensures Valid() && rows == old(rows) && Shrinks(old(vms), vms)
      ensures r.Ok? ==> if rows[k].machine.Some? then rows[k].machine.value !in vms else Owned(vms, k) == {}
      ensures r.Ok? ==> (Owned(vms, k) != {} <==> Stray(old(vms), k, rows[k].machine))
      ensures r.Ok? && lossless ==> Owned(vms, k) == {}
      ensures calm ==> forall why :: r == Err(why) <==> Hindered(old(vms), k, rows[k].machine, why)
      ensures calm && r.Ok? ==>
          var machine := rows[k].machine;
          vms == old(vms) - if machine.Some? then Owned(old(vms), k) * {machine.value} else Owned(old(vms), k)
    {
      var failed := Fails(calm);
      if failed {
        return Err(Unavailable);
      }
      TargetIff(vms, k, rows[k].machine);
      var target := Target(vms, k, rows[k].machine);
      if target.Err? {
        return Err(target.error);
      }
      DeleteLeavesStrayOnly(vms, k, rows[k].machine);
      TargetIsOwned(vms, k, rows[k].machine);
      if rows[k].machine.Some? {
        OnlyRecorded(k, rows[k].machine.value);
      }
      if target.value.Some? {
        var gone := Remove(target.value.value, k, calm);
        if !gone {
          return Err(Unavailable);
        }
      }
      return Ok(true);
    }

    // `terminate`
    method Terminate(k: nat, calm: bool) returns (ok: bool)
      requires Valid() && k < |rows| && rows[k].shutdown
      requires if rows[k].machine.Some? then rows[k].machine.value !in vms else Owned(vms, k) == {}
      modifies this
      ensures old(cs) <= cs
      ensures Valid() && Shrinks(old(vms), vms)
      ensures rows == if ok then old(rows)[k := old(rows)[k].(terminated := true)] else old(rows)
      ensures calm ==> ok && vms == old(vms)
    {
      Pause(calm);
      var failed := Fails(calm);
      ok := !failed;
      if ok {
        ShrinksSets(old(vms), vms);
        Do(Change.Terminate(k));
      }
    }

    // Others act; what is accounted for stays so.
    method Wait(calm: bool)
      requires Valid()
      modifies this
      ensures rows == old(rows) && old(cs) <= cs
      ensures Valid() && Shrinks(old(vms), vms) && issued >= old(issued) && OldIds(old(vms), old(issued), vms)
      ensures lossless ==>
          && (forall id :: id in old(vms) && old(vms)[id].tagged ==> id in vms)
          && forall k :: Owned(vms, k) == Owned(old(vms), k)
    {
      Pause(calm);
      ShrinksSets(old(vms), vms);
      if lossless {
        ShrinksSets(vms, old(vms));
      }
    }

    // One machine of the startup listing: adopt it, leave it, or delete it.
    method Reap(id: nat, vm: Vm, calm: bool) returns (ok: bool)
      requires Valid() && vm.tagged && (id in vms ==> vms[id] == vm) && id < issued && (lossless ==> id in vms)
      modifies this
      ensures issued == old(issued) && old(cs) <= cs
      ensures Valid() && |rows| == |old(rows)| && (vms == old(vms) || vms == old(vms) - {id})
      ensures forall k ::
          0 <= k < |rows| ==>
          rows[k] == old(rows)[k] || (old(rows)[k].machine.None? && rows[k] == old(rows)[k].(machine := Some(id)))
      ensures forall k :: 0 <= k < |rows| && rows[k] != old(rows)[k] ==> vm.name == Of(k)
      ensures ok && id in vms && vms[id].tagged ==> Accounted(vms, rows, id)
      ensures lossless ==> forall k :: Owned(vms, k) == Owned(old(vms), k)
      ensures calm ==> ok
    {
      var failed := Fails(calm);
      if failed {
        return false;
      }
      if id in vms {
        TrackedIsKept(vms, rows, id);
        UnlabelledLess(vms, rows, id);
      }
      if Keep(vm, rows, id) {
        var k := vm.name.compute;
        if rows[k].machine.None? {
          Do(Record(k, id));
        }
        return true;
      }
      if id in vms {
        Do(Change.Remove(id));
      }
      var lost := Fails(calm);
      ok := !lost;
    }

    // The next machine of the listing.
    method ReapNext(ghost listed: map<nat, Vm>, ghost first: nat, ghost todo: set<nat>, id: nat, vm: Vm, calm: bool)
        returns (ok: bool)
      requires Valid() && id in todo && id in listed && vm == listed[id]
          && Listing(listed, first, vms, issued, todo, lossless)
      requires Settled(vms, rows, todo)
      modifies this
      ensures old(cs) <= cs
      ensures Valid() && Listing(listed, first, vms, issued, todo - {id}, lossless) && OnlyMachines(old(rows), rows)
      ensures ok ==> Settled(vms, rows, todo - {id})
      ensures lossless ==> forall k :: Owned(vms, k) == Owned(old(vms), k)
      ensures calm ==> ok
    {
      Wait(calm);
      ghost var before, written := vms, rows;
      ok := Reap(id, vm, calm);
      ReapSettles(before, written, vms, rows, todo, id, ok);
    }

    /** `reap_orphans`: once it is through, every machine of this deployment belongs to the
        active row that names it. */
    method ReapOrphans(calm: bool) returns (ok: bool)
      requires Valid()
      modifies this
      ensures old(cs) <= cs
      ensures Valid() && Shrinks(old(vms), vms) && OnlyMachines(old(rows), rows)
      ensures ok ==> Settled(vms, rows, {})
      ensures lossless ==> forall k :: Owned(vms, k) == Owned(old(vms), k)
      ensures calm ==> ok
    {
      var listed := vms;
      ghost var first := issued;
      var todo := Managed(vms);
      while todo != {}
        invariant Valid() && Listing(listed, first, vms, issued, todo, lossless) && Settled(vms, rows, todo)
            && OnlyMachines(old(rows), rows)
        invariant lossless ==> forall k :: Owned(vms, k) == Owned(listed, k)
        invariant old(cs) <= cs
      {
        var id :| id in todo;
        ok := ReapNext(listed, first, todo, id, listed[id], calm);
        if !ok {
          return;
        }
        todo := todo - {id};
      }
      ok := true;
    }

    // Any one operation of the control plane, complete or cut short.
    method Step()
      requires Valid()
      modifies this
      ensures Valid() && old(cs) <= cs
    {
      var op: nat :| true;
      var k: int := *;
      if op == 0 {
        k := NewRow();
      } else if op == 1 {
        var ok := ReapOrphans(false);
      } else if 0 <= k < |rows| && !rows[k].terminated {
        if op == 2 {
          var r, at := Delete(k, false);
        } else if op == 3 {
          Do(Prepare(k));
        } else if !rows[k].shutdown {
          var r := EnsureForInstance(k, false);
        }
      }
    }

    /** Start up and run: after a passing preflight the managed machines are within the cap at
        every moment of whatever operations follow, complete or cut short; whatever the preflight
        says, there is one machine per row at most, none is created for a row once its shutdown
        is on record, and with no machine lost a terminated row has none. */
    method Serve() returns (passed: bool)
      requires Valid()
      modifies this
      ensures Valid() && old(cs) <= cs
      ensures passed <==> |Managed(old(vms))| <= max
      ensures passed ==> forall n :: |old(es)| <= n < |cs| ==> |Managed(cs[n].vms)| <= max
      ensures !passed ==> View() == old(View())
      ensures Final(old(vms), old(rows), vms, rows)
      ensures forall k :: 0 <= k < |rows| ==> |Owned(vms, k)| <= 1
      ensures lossless ==> forall k :: 0 <= k < |rows| && rows[k].terminated ==> Owned(vms, k) == {}
    {
      passed := |Managed(vms)| <= max;
      if passed {
        var n: nat :| true;
        while n > 0
          invariant Valid() && old(cs) <= cs
        {
          Step();
          n := n - 1;
        }
      }
      ghost var from := |old(es)|;
      assert cs[from] == old(View());
      NoneAfterShutdown(cs, es, max, lossless, from, |es|);
      OneMachinePerRow(cs, es, max, lossless, |es|);
      forall n | passed && from <= n < |cs| ensures |Managed(cs[n].vms)| <= max {
        CapHolds(cs, es, max, lossless, from, n);
      }
    }
  }
}
