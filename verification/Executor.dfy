/** The node agent's command handlers, step by step. Between any two of their
    steps every other party may act, and any step may be their last. */
module Executor {
  import opened Domain
  import opened Database
  import opened Lifecycle
  import opened WorldLineage
  import opened Reconciler

  // The agent on machine `c` is executing `cmd`.
  predicate Busy(w: World, c: nat, cmd: Command) {
    c in w.nodes && w.nodes[c].inflight == Some(cmd)
  }

  // While an agent executes, others can at most end its process container.
  ghost predicate Kept(n: Node, n': Node) {
    n'.state == n.state && (n'.container == n.container || (n.container == Up && n'.container == Exited))
  }

  lemma OthersKeep(w: World, e: Event, c: nat, cmd: Command)
    requires Busy(w, c, cmd) && Enabled(w, e) && !(e.Agent? && e.c == c) && Busy(Apply(w, e), c, cmd)
    ensures Kept(w.nodes[c], Apply(w, e).nodes[c])
  {
    if e.Agent? {
      OtherAgent(w, e.c, e.move, c);
    }
  }

  lemma OtherAgent(w: World, d: nat, move: Move, c: nat)
    requires c in w.nodes && d != c && d in w.nodes && w.nodes[d].inflight.Some?
    ensures c in Moved(w, d, move).nodes && Moved(w, d, move).nodes[c] == w.nodes[c]
  {}

  // `validate_identity` against the stored state, if there is one.
  predicate Known(node: Node, cmd: Command) {
    node.state.Some? && Matches(node.state.value, cmd)
  }

  // Others act. The result says whether the agent still runs the command.
  method Wait(p: Plane, c: nat, cmd: Command, calm: bool) returns (alive: bool)
    requires p.Valid() && Busy(p.View(), c, cmd)
    modifies p
    ensures p.Valid() && (alive <==> Busy(p.View(), c, cmd))
    ensures alive ==> Kept(old(p.nodes)[c], p.nodes[c])
    ensures calm ==> p.View() == old(p.View())
  {
    alive := true;
    if calm {
      return;
    }
    var n: nat :| true;
    while n > 0 && alive
      invariant p.Valid() && (alive <==> Busy(p.View(), c, cmd))
      invariant alive ==> Kept(old(p.nodes)[c], p.nodes[c])
    {
      var e: Event := *;
      if Enabled(p.View(), e) && !(e.Agent? && e.c == c) {
        ghost var before := p.View();
        p.Other(e);
        alive := Busy(p.View(), c, cmd);
        if alive {
          OthersKeep(before, e, c, cmd);
        }
      }
      n := n - 1;
    }
  }

  // An external call that may fail, with everything that happens meanwhile.
  method Try(p: Plane, c: nat, cmd: Command, calm: bool) returns (alive: bool, failed: bool)
    requires p.Valid() && Busy(p.View(), c, cmd)
    modifies p
    ensures p.Valid() && (alive <==> Busy(p.View(), c, cmd))
    ensures alive ==> Kept(old(p.nodes)[c], p.nodes[c])
    ensures calm ==> p.View() == old(p.View()) && !failed
  {
    alive := Wait(p, c, cmd, calm);
    failed := *;
    if calm {
      failed := false;
    }
  }

  method Fail(p: Plane, c: nat, cmd: Command) returns (reply: Option<Reply>)
    requires p.Valid() && Busy(p.View(), c, cmd)
    modifies p
    ensures p.Valid() && reply == Some(Refused)
    ensures p.View() == old(p.View()).(nodes := old(p.nodes)[c := Settle(old(p.nodes)[c], Refused)])
  {
    RefusalAllowed(p.View(), c, cmd);
    p.Do(Agent(c, Refuse));
    reply := Some(Refused);
  }

  lemma RefusalAllowed(w: World, c: nat, cmd: Command)
    requires Busy(w, c, cmd)
    ensures Enabled(w, Agent(c, Refuse))
  {}

  // The machine is prepared for the very instance and token of the command.
  ghost predicate Ours(node: Node, cmd: Command) {
    node.state.Some? && node.state.value.instance == cmd.instance && node.state.value.token == cmd.token
  }

  ghost predicate Empty(node: Node) {
    node.container == NoContainer && node.data == Missing && node.state.None?
  }

  // The call that brings the command's effect about: it may fail before it or after it.
  method Effect(p: Plane, c: nat, cmd: Command, calm: bool) returns (reply: Option<Reply>)
    requires p.Valid() && Busy(p.View(), c, cmd) && Known(p.nodes[c], cmd)
    requires cmd.kind == Stop || (cmd.kind == Start && p.nodes[c].container != NoContainer)
    modifies p
    ensures p.Valid() && (reply.Some? ==> c in p.nodes && p.nodes[c].reply == reply)
    ensures reply.Some? && reply.value.Done? ==> (p.nodes[c].container == Up <==> cmd.kind == Start)
    ensures calm ==> reply == Some(Done(cmd.kind, (old(p.nodes)[c].container == Up) == (cmd.kind == Stop)))
  {
    var alive, failed := Try(p, c, cmd, calm);
    if !alive {
      return None;
    }
    if failed {
      var done: bool := *;
      if done {
        p.Do(Agent(c, Falter("", true)));
        return Some(Refused);
      }
      reply := Fail(p, c, cmd);
      return;
    }
    p.Do(Agent(c, Move.Finish("", true)));
    return p.nodes[c].reply;
  }

  /** `start_server`: undisturbed, it starts the prepared instance, says so exactly if it was
      not running before, and refuses any other. */
  method StartServer(p: Plane, c: nat, cmd: Command, calm: bool) returns (reply: Option<Reply>)
    requires p.Valid() && Busy(p.View(), c, cmd) && cmd.kind == Start
    modifies p
    ensures p.Valid()
    ensures reply.Some? ==> c in p.nodes && p.nodes[c].reply == reply
    ensures reply.Some? && reply.value.Done? ==> p.nodes[c].container == Up
    ensures calm ==>
        reply == Some(if Ours(old(p.nodes)[c], cmd) then Done(Start, old(p.nodes)[c].container != Up) else Refused)
  {
    var alive, failed := Try(p, c, cmd, calm);
    if !alive {
      return None;
    }
    if failed || !Known(p.nodes[c], cmd) {
      reply := Fail(p, c, cmd);
      return;
    }
    if p.nodes[c].container != Up {
      alive := Recreate(p, c, cmd, calm);
      if !alive {
        return None;
      }
      if p.nodes[c].container == NoContainer {
        reply := Fail(p, c, cmd);
        return;
      }
    }
    reply := Effect(p, c, cmd, calm);
  }

  // Remove the old container and create a new one.
  method Recreate(p: Plane, c: nat, cmd: Command, calm: bool) returns (alive: bool)
    requires p.Valid() && Busy(p.View(), c, cmd) && cmd.kind == Start && Known(p.nodes[c], cmd)
        && p.nodes[c].container != Up
    modifies p
    ensures p.Valid() && (alive <==> Busy(p.View(), c, cmd))
    ensures alive ==> Known(p.nodes[c], cmd) && p.nodes[c].container != Up
    ensures calm ==> alive && p.nodes[c].container == Exited
  {
    p.Do(Agent(c, Drop));
    var failed;
    alive, failed := Try(p, c, cmd, calm);
    if alive && !failed {
      p.Do(Agent(c, Make));
      alive := Wait(p, c, cmd, calm);
    }
  }

  /** `stop_server`: undisturbed, it stops the instance, says so exactly if it was running, and
      refuses any other. */
  method StopServer(p: Plane, c: nat, cmd: Command, calm: bool) returns (reply: Option<Reply>)
    requires p.Valid() && Busy(p.View(), c, cmd) && cmd.kind == Stop
    modifies p
    ensures p.Valid()
    ensures reply.Some? ==> c in p.nodes && p.nodes[c].reply == reply
    ensures reply.Some? && reply.value.Done? ==> p.nodes[c].container != Up
    ensures calm ==>
        reply == Some(if Ours(old(p.nodes)[c], cmd) then Done(Stop, old(p.nodes)[c].container == Up) else Refused)
  {
    var alive, failed := Try(p, c, cmd, calm);
    if !alive {
      return None;
    }
    if failed || !Known(p.nodes[c], cmd) {
      reply := Fail(p, c, cmd);
      return;
    }
    reply := Effect(p, c, cmd, calm);
  }

  /** `snapshot_data`: the answer names a snapshot of the very data on the disk, and only after
      its id was stored. A snapshot may exist that no state and no answer names. `id` is what
      restic prints. Undisturbed, it refuses only another instance or a running one. */
  method SnapshotData(p: Plane, c: nat, cmd: Command, id: SnapshotId, calm: bool) returns (reply: Option<Reply>)
    requires p.Valid() && Busy(p.View(), c, cmd) && cmd.kind == Backup
    modifies p
    ensures p.Valid()
    ensures reply.Some? ==> c in p.nodes && p.nodes[c].reply == reply
    ensures reply.Some? && reply.value.Taken? ==> Stored(p.View(), c, cmd, reply.value.id)
    ensures calm && FreshId(old(p.View()), id) ==>
      reply == Some(if Ours(old(p.nodes)[c], cmd) && old(p.nodes)[c].container != Up then Taken(id) else Refused)
  {
    var alive, failed := Try(p, c, cmd, calm);
    if !alive {
      return None;
    }
    if failed || !Known(p.nodes[c], cmd) || p.nodes[c].container == Up {
      reply := Fail(p, c, cmd);
      return;
    }
    reply := Take(p, c, cmd, id, calm);
  }

  // restic, then the id into the state.
  method Take(p: Plane, c: nat, cmd: Command, id: SnapshotId, calm: bool) returns (reply: Option<Reply>)
    requires p.Valid() && Busy(p.View(), c, cmd) && cmd.kind == Backup
    requires Known(p.nodes[c], cmd) && p.nodes[c].container != Up
    modifies p
    ensures p.Valid() && (reply.Some? ==> c in p.nodes && p.nodes[c].reply == reply)
    ensures reply.Some? && reply.value.Taken? ==> Stored(p.View(), c, cmd, reply.value.id)
    ensures calm && FreshId(old(p.View()), id) ==> reply == Some(Taken(id))
  {
    var alive, failed := Try(p, c, cmd, calm);
    if !alive {
      return None;
    }
    if !FreshId(p.View(), id) {
      reply := Fail(p, c, cmd);
      return;
    }
    if failed {
      var stored: bool := *;
      if stored {
        p.Do(Agent(c, Falter(id, true)));
        return Some(Refused);
      }
      p.Do(Agent(c, Save(id)));
      reply := Fail(p, c, cmd);
      return;
    }
    p.Do(Agent(c, Move.Finish(id, true)));
    return Some(Taken(id));
  }

  ghost predicate Stored(w: World, c: nat, cmd: Command, id: SnapshotId)
    requires c in w.nodes
  {
    && w.nodes[c].state.Some? && w.nodes[c].state.value.last == Some(id)
    && (cmd.repository, id) in w.restic && w.restic[(cmd.repository, id)] == TreeOf(w.nodes[c].data)
    && (cmd.instance, id) in w.offered
  }

  /** `restore_data`, with the directories as far as they matter outside the machine.
      Undisturbed, it prepares a bare machine, leaves a prepared one alone and refuses another's. */
  method RestoreData(p: Plane, c: nat, cmd: Command, calm: bool) returns (reply: Option<Reply>)
    requires p.Valid() && Busy(p.View(), c, cmd) && cmd.kind == Restore
    modifies p
    ensures p.Valid()
    ensures reply.Some? ==> c in p.nodes && p.nodes[c].reply == reply
    ensures reply.Some? && reply.value.Done? ==> p.nodes[c].state.Some? && Matches(p.nodes[c].state.value, cmd)
    ensures reply == Some(Done(Restore, true)) ==>
        p.nodes[c].data == Whole(TreeAt(p.restic, cmd.repository, cmd.source))
    ensures calm && old(p.nodes)[c].state.Some? ==>
        reply == Some(if Ours(old(p.nodes)[c], cmd) then Done(Restore, false) else Refused)
    ensures calm && old(p.nodes)[c].state.None? && TreeAt(old(p.restic), cmd.repository, cmd.source) != Torn ==>
        reply == Some(Done(Restore, true))
  {
    var alive, failed := Try(p, c, cmd, calm);
    if !alive {
      return None;
    }
    if failed || (p.nodes[c].state.Some? && !Known(p.nodes[c], cmd)) {
      reply := Fail(p, c, cmd);
      return;
    }
    if p.nodes[c].state.Some? {
      p.Do(Agent(c, Move.Finish("", false)));
      return Some(Done(Restore, false));
    }
    reply := PrepareBare(p, c, cmd, calm);
  }

  // Data into place, then the state that says so.
  method PrepareBare(p: Plane, c: nat, cmd: Command, calm: bool) returns (reply: Option<Reply>)
    requires p.Valid() && Busy(p.View(), c, cmd) && cmd.kind == Restore && p.nodes[c].state.None?
    modifies p
    ensures p.Valid() && (reply.Some? ==> c in p.nodes && p.nodes[c].reply == reply)
    ensures reply.Some? && reply.value.Done? ==>
        && reply.value.changed && p.nodes[c].state.Some? && Matches(p.nodes[c].state.value, cmd)
        && p.nodes[c].data == Whole(TreeAt(p.restic, cmd.repository, cmd.source))
    ensures calm && TreeAt(old(p.restic), cmd.repository, cmd.source) != Torn ==> reply == Some(Done(Restore, true))
  {
    var debris: Directory := *;
    p.Do(Agent(c, Scratch(debris)));
    var alive, failed := Try(p, c, cmd, calm);
    if !alive {
      return None;
    }
    if TreeAt(p.restic, cmd.repository, cmd.source) == Torn {
      reply := Fail(p, c, cmd);
      return;
    }
    if failed {
      var stored: bool := *;
      if stored {
        p.Do(Agent(c, Falter("", true)));
        return Some(Refused);
      }
      reply := Fail(p, c, cmd);
      return;
    }
    p.Do(Agent(c, Move.Finish("", true)));
    return Some(Done(Restore, true));
  }

  /** `cleanup_instance`: nothing is left, and `changed` is reported exactly if there was
      anything. Undisturbed, it refuses only another instance. */
  method CleanupInstance(p: Plane, c: nat, cmd: Command, calm: bool) returns (reply: Option<Reply>)
    requires p.Valid() && Busy(p.View(), c, cmd) && cmd.kind == Cleanup
    modifies p
    ensures p.Valid()
    ensures reply.Some? ==> c in p.nodes && p.nodes[c].reply == reply
    ensures reply.Some? && reply.value.Done? ==> Empty(p.nodes[c])
    ensures calm ==> reply == Some(if old(p.nodes)[c].state.Some? && !Ours(old(p.nodes)[c], cmd) then Refused
                                   else Done(Cleanup, !Empty(old(p.nodes)[c])))
  {
    var alive, failed := Try(p, c, cmd, calm);
    if !alive {
      return None;
    }
    if failed || (p.nodes[c].state.Some? && !Known(p.nodes[c], cmd)) {
      reply := Fail(p, c, cmd);
      return;
    }
    var existed := HasStorage(p.nodes[c]);
    p.Do(Agent(c, Drop));
    reply := RemoveStorage(p, c, cmd, existed, calm);
  }

  // The directories, then the stored state.
  method RemoveStorage(p: Plane, c: nat, cmd: Command, existed: bool, calm: bool) returns (reply: Option<Reply>)
    requires p.Valid() && Busy(p.View(), c, cmd) && cmd.kind == Cleanup && p.nodes[c].container == NoContainer
    requires p.nodes[c].state.Some? ==> Known(p.nodes[c], cmd) && existed
    modifies p
    ensures p.Valid()
    ensures reply.Some? ==> c in p.nodes && p.nodes[c].reply == reply
    ensures reply.Some? && reply.value.Done? ==> Empty(p.nodes[c])
    ensures calm ==> reply == Some(Done(Cleanup, existed))
  {
    var alive, failed := Try(p, c, cmd, calm);
    if !alive {
      return None;
    }
    var debris: Directory := *;
    p.Do(Agent(c, Scratch(if failed then debris else Missing)));
    if failed {
      reply := Fail(p, c, cmd);
      return;
    }
    p.Do(Agent(c, Move.Finish("", existed)));
    return Some(Done(Cleanup, existed));
  }
}
