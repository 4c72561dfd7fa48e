/** How far a server is from the state its client asked for.

    The rank counts the changes the reconciler still has to make, for the
    instance at hand and for the one that may have to follow it. */
module Convergence {
  import opened Domain
  import opened Database
  import opened Lifecycle

  // `SELECT ... WHERE server_id = ? AND terminated_at_ms IS NULL`
  function ActiveOf(s: seq<Instance>): (r: Option<nat>)
    ensures r.Some? ==> r.value < |s| && s[r.value].Active()
    ensures r.None? <==> !HasActive(s)
  {
    if |s| == 0 then None
    else
      assert s[..|s| - 1] + [s[|s| - 1]] == s;
      if s[|s| - 1].Active() then Some(|s| - 1) else ActiveOf(s[..|s| - 1])
  }

  // `SELECT ... WHERE server_instance_id = ? AND terminated_at_ms IS NULL`
  function ComputeOf(cs: seq<Compute>, i: nat): (r: Option<nat>)
    ensures r.Some? ==> r.value < |cs| && cs[r.value].instance == i && cs[r.value].Active()
    ensures r.None? <==> !HasActiveCompute(cs, i)
  {
    if |cs| == 0 then None
    else
      assert cs[..|cs| - 1] + [cs[|cs| - 1]] == cs;
      if cs[|cs| - 1].instance == i && cs[|cs| - 1].Active() then Some(|cs| - 1) else ComputeOf(cs[..|cs| - 1], i)
  }

  // Everything the next step depends on.
  datatype Focus = Focus(desired: DesiredState, row: Option<Instance>, compute: Option<Compute>, node: Option<Node>)

  function FocusOf(w: World): Focus {
    var a := ActiveOf(w.db.instances);
    if a.None? then Focus(w.db.server.desired, None, None, None)
    else
      var c := ComputeOf(w.db.computes, a.value);
      Focus(w.db.server.desired, Some(w.db.instances[a.value]),
            if c.None? then None else Some(w.db.computes[c.value]),
            if c.Some? && c.value in w.nodes then Some(w.nodes[c.value]) else None)
  }

  function One(b: bool): nat {
    if b then 1 else 0
  }

  predicate Unobserved(row: Instance, node: Node) {
    row.observedAt.None? || row.running != (node.container == Up)
  }

  // Work left on the machine before the process runs.
  function NodeRun(row: Instance, node: Node, unrecorded: bool): nat {
    One(!node.agentUp) + One(unrecorded) + One(node.state.None? || row.preparedAt.None?) + One(Unobserved(row, node))
        + One(node.container != Up)
  }

  // Work left on the machine before it can be deleted.
  function NodeStop(row: Instance, node: Node, unrecorded: bool): nat {
    One(!node.agentUp) + One(unrecorded) + One(HasStorage(node)) + One(node.state.Some? && row.preparedAt.None?)
    + One(row.result.None? && (row.preparedAt.Some? || node.state.Some?)) + One(node.container == Up)
        + One(Unobserved(row, node))
  }

  function RunWork(f: Focus): nat
    requires f.row.Some?
  {
    if f.compute.None? || f.node.None? then 1 + NodeRun(f.row.value, BARE, true)
    else NodeRun(f.row.value, f.node.value, f.compute.value.machine != Some(f.node.value.id))
  }

  function StopWork(f: Focus): nat
    requires f.row.Some?
  {
    if f.compute.None? then 1
    else if f.node.None? then 3 + NodeStop(f.row.value, BARE, true)
    else 2 + NodeStop(f.row.value, f.node.value, f.compute.value.machine != Some(f.node.value.id))
  }

  // Creating the next instance and running it, until it has to stop again.
  const NEXT: nat := 17

  function Rank(f: Focus): (r: nat)
    ensures r < 32
  {
    if f.row.None? then (if f.desired == Running then NEXT else 0)
    else if f.row.value.stopAt.Some? then StopWork(f) + (if f.desired == Running then NEXT else 0)
    else if f.desired == Stopped then 1 + StopWork(f)
    else RunWork(f) + 11
  }

  // Nothing outstanding in any session, and every registered session works.
  ghost predicate Quiet(w: World) {
    && (forall c :: c in w.nodes && c in w.sessions ==> w.nodes[c].inflight.None?)
    && (forall c :: c in w.sessions ==> w.sessions[c] == Live)
  }

  // The client has what it asked for.
  ghost predicate Settled(w: World) {
    var f := FocusOf(w);
    if f.desired == Stopped then f.row.None?
    else
      && f.row.Some? && f.row.value.stopAt.None? && f.row.value.preparedAt.Some? && f.row.value.running
      && f.compute.Some? && f.node.Some? && f.node.value.container == Up
          && f.compute.value.machine == Some(f.node.value.id)
  }

  lemma {:induction false} ActiveOfFenced(next: nat, s: seq<Instance>, i: nat)
    requires Fenced(next, s) && i < |s| && s[i].Active()
    ensures ActiveOf(s) == Some(i) && i == |s| - 1
  {
    ActiveIsLast(next, s, i);
  }

  lemma OnlyLastActive(next: nat, s: seq<Instance>)
    requires Fenced(next, s)
    ensures forall k :: 0 <= k < |s| && s[k].Active() ==> k == |s| - 1
  {
    forall k | 0 <= k < |s| && s[k].Active() ensures k == |s| - 1 {
      ActiveIsLast(next, s, k);
    }
  }

  lemma {:induction false} ComputeOfTied(s: seq<Instance>, cs: seq<Compute>, c: nat)
    requires ComputesTied(s, cs) && c < |cs| && cs[c].Active()
    ensures ComputeOf(cs, cs[c].instance) == Some(c)
  {
    assert HasActiveCompute(cs, cs[c].instance);
  }
}
