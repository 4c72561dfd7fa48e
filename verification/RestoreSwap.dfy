/** Restoring /data on a node: three directories, recovered after an
    interruption at any point.

    A rename happens or does not, whatever the caller is told. Removing a tree
    can stop half-way. A crash is a call that fails, followed by nothing; the
    next run starts over from what is on the disk. Every rename needs a free
    destination, and finds one. */
module RestoreSwap {
  import opened Domain

  type Content = nat

  datatype Dir = Missing | Partial | Whole(content: Content)

  // The staging directory and the `data` directory restic creates in it.
  datatype Staging = NoStaging | Stage(restored: Dir)

  const EMPTY: Content := 0

  // How a rename goes: whether it happens, and whether it is reported to have happened.
  type Renaming = f: Rename | f.reported ==> f.effect witness Rename(true, true)

  datatype Rename = Rename(effect: bool, reported: bool)

  /** One node's state directory, for one instance with a fixed source snapshot. */
  class Disk {
    const source: Option<Content>
    var data: Dir
    var previous: Dir
    var staging: Staging
    // `data_prepared` in the stored agent state.
    var prepared: bool
    // The last complete contents `data` has had.
    ghost var last: Option<Content>

    function Wanted(): Content {
      if source.Some? then source.value else EMPTY
    }

    ghost predicate Valid()
      reads this
    {
      && (prepared ==> data == Whole(Wanted()))
      && (data.Whole? ==> last == Some(data.content))
      && (source.Some? ==> Swappable())
    }

    // Old data is in its place, or safe next to it, until new data has replaced it.
    ghost predicate Swappable()
      reads this
    {
      && data != Partial
      && (data == Missing && last.Some? ==> previous == Whole(last.value))
      && (previous == Partial ==> data != Missing)
    }

    constructor (source: Option<Content>, found: Dir)
      requires source.Some? ==> found != Partial
      ensures Valid() && !prepared && this.source == source && data == found
    {
      this.source, data, previous, staging, prepared := source, found, Missing, NoStaging, false;
      last := if found.Whole? then Some(found.content) else None;
    }

    static method Renames(calm: bool) returns (move: Renaming)
      ensures calm ==> move.reported
    {
      var failed := Fails(calm);
      var effect := Fails(calm);
      return Rename(!failed || effect, !failed);
    }

    // What is left of a tree after an attempt to remove it.
    static method Removed(dir: Dir, calm: bool) returns (left: Dir, ok: bool)
      ensures ok ==> left == Missing
      ensures calm ==> ok
      ensures left == dir || left == Missing || left == Partial
      ensures dir == Missing ==> left == Missing
    {
      ok := Fails(calm);
      ok := !ok;
      if ok || dir == Missing {
        return Missing, ok;
      }
      var touched := Fails(calm);
      return if touched then Partial else dir, false;
    }

    // Move `previous` to `data`; the destination must be free.
    method Recover(move: Renaming)
      requires Valid() && !prepared && source.Some? && data == Missing && previous != Missing
      modifies this
      ensures Valid() && !prepared && staging == old(staging)
      ensures move.effect ==> data == old(previous) && previous == Missing
      ensures !move.effect ==> data == Missing && previous == old(previous)
      ensures old(last.Some?) ==> last == old(last)
    {
      if move.effect {
        data, previous := previous, Missing;
        if data.Whole? {
          last := Some(data.content);
        }
      }
    }

    // Remove what an earlier run left in `staging` and `previous`.
    method Sweep(calm: bool) returns (ok: bool)
      requires Valid() && !prepared && source.Some? && (data != Missing || previous == Missing)
      modifies `staging, `previous
      ensures Valid() && (ok ==> staging == NoStaging && previous == Missing)
      ensures calm ==> ok
    {
      var left: Dir;
      if staging.Stage? {
        left, ok := Removed(staging.restored, calm);
        staging := if ok then NoStaging else Stage(left);
        if !ok {
          return;
        }
      }
      left, ok := Removed(previous, calm);
      previous := left;
    }

    // `restic restore` into a fresh staging directory.
    method Fetch(calm: bool) returns (ok: bool)
      requires Valid() && source.Some? && staging == NoStaging
      modifies `staging
      ensures Valid()
      ensures if ok then staging == Stage(Whole(source.value)) else staging in {Stage(Partial), Stage(Missing)}
      ensures calm ==> ok
    {
      var failed := Fails(calm);
      if failed {
        var begun := Fails(calm);
        staging := if begun then Stage(Partial) else Stage(Missing);
        return false;
      }
      staging := Stage(Whole(source.value));
      return true;
    }

    /** `data` out of the way, the restored tree in; back again if that fails. Old data that was
        moved aside is back in its place unless moving it back fails too. */
    method Exchange(aside: Renaming, inside: Renaming, back: Renaming) returns (ok: bool)
      requires Valid() && !prepared && source.Some? && staging == Stage(Whole(source.value)) && previous == Missing
      modifies this
      ensures Valid() && !prepared
      ensures ok <==> (old(data) == Missing || aside.reported) && inside.reported
      ensures ok ==> data == Whole(source.value) && previous == old(data)
      ensures old(data) != Missing && !aside.reported ==>
          && staging == old(staging)
          && (if aside.effect then data == Missing && previous == old(data)
              else data == old(data) && previous == Missing)
      ensures (old(data) == Missing || aside.reported) && !inside.reported && inside.effect ==>
          data == Whole(source.value) && previous == old(data)
      ensures (old(data) == Missing || aside.reported) && !inside.reported && !inside.effect ==>
          && staging == old(staging)
          && (if back.effect then data == old(data) && previous == Missing
              else data == Missing && previous == old(data))
    {
      if data != Missing {
        if aside.effect {
          data, previous := Missing, data;
        }
        if !aside.reported {
          return false;
        }
      }
      assert data == Missing;
      if inside.effect {
        data, staging := staging.restored, Stage(Missing);
        last := Some(source.value);
      }
      if !inside.reported {
        if previous != Missing && data == Missing {
          Recover(back);
        }
        return false;
      }
      return true;
    }

    // The old tree and the staging directory go last.
    method Tidy(calm: bool) returns (ok: bool)
      requires Valid() && !prepared && source.Some? && data == Whole(source.value)
      modifies `staging, `previous
      ensures Valid() && (ok ==> previous == Missing && staging == NoStaging)
      ensures calm ==> ok
    {
      var left: Dir;
      left, ok := Removed(previous, calm);
      previous := left;
      if !ok {
        return;
      }
      if staging.Stage? {
        left, ok := Removed(staging.restored, calm);
        staging := if ok then NoStaging else Stage(left);
      }
    }

    /** `restore_snapshot` */
    method RestoreSnapshot(calm: bool) returns (ok: bool)
      requires Valid() && !prepared && source.Some?
      modifies this
      ensures Valid() && !prepared
      ensures ok ==> data == Whole(source.value) && previous == Missing && staging == NoStaging
      ensures calm ==> ok
    {
      if data == Missing && previous != Missing {
        var move := Renames(calm);
        Recover(move);
        if !move.reported {
          return false;
        }
      }
      ok := Sweep(calm);
      if !ok {
        return;
      }
      ok := Fetch(calm);
      if !ok {
        return;
      }
      var aside := Renames(calm);
      var inside := Renames(calm);
      var back := Renames(calm);
      ok := Exchange(aside, inside, back);
      if ok {
        ok := Tidy(calm);
      }
    }

    // A server without a snapshot starts from an empty directory.
    method CreateEmpty(calm: bool) returns (ok: bool)
      requires Valid() && !prepared && source.None?
      modifies this
      ensures Valid() && !prepared && (ok ==> data == Whole(EMPTY))
      ensures calm ==> ok
    {
      var left;
      left, ok := Removed(data, calm);
      data := left;
      if ok {
        var failed := Fails(calm);
        if failed {
          return false;
        }
        data, last := Whole(EMPTY), Some(EMPTY);
      }
    }

    /** `restore_data`: the stored state says prepared only once the data is all there, and
        saying so again changes nothing. */
    method RestoreData(calm: bool) returns (r: Result<bool, string>)
      requires Valid()
      modifies this
      ensures Valid()
      ensures r.Ok? ==> prepared && data == Whole(Wanted()) && (r.value <==> !old(prepared))
      ensures old(prepared) ==> data == old(data) && previous == old(previous) && staging == old(staging)
      ensures calm ==> r.Ok?
    {
      if prepared {
        return Ok(false);
      }
      var ok: bool;
      if source.Some? {
        ok := RestoreSnapshot(calm);
      } else {
        ok := CreateEmpty(calm);
      }
      if !ok {
        return Err("interrupted");
      }
      var failed := Fails(calm);
      var effect := Fails(calm);
      if !failed || effect {
        prepared := true;
      }
      return if failed then Err("interrupted") else Ok(true);
    }

    /** Any number of interrupted attempts, then one that is let through. */
    method Attempts()
      requires Valid()
      modifies this
      ensures Valid() && prepared && data == Whole(Wanted())
    {
      var n: nat :| true;
      while n > 0
        invariant Valid()
      {
        var r := RestoreData(false);
        n := n - 1;
      }
      var r := RestoreData(true);
    }
  }
}
