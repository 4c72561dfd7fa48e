/** Values shared by every part of the control plane, and the pure transitions of
    the `Server` entity (crates/mcserver-control-plane/src/domain/server.rs). */
module Domain {

  datatype Option<+T> = None | Some(value: T)

  datatype Result<+T, +E> = Ok(value: T) | Err(error: E)

  type SnapshotId = string

  datatype DesiredState = Running | Stopped

  datatype ComputeSpec = Local | Akamai(region: string, instanceType: string, image: string, firewall: nat)

  datatype ProcessSpec = ProcessSpec(image: string, hostPort: nat, stopTimeout: nat, acceptEula: bool)

  datatype Backend = LocalRestic | R2Restic

  datatype DataSpec = DataSpec(backend: Backend, repository: string)

  datatype Spec = Spec(compute: ComputeSpec, process: ProcessSpec, data: DataSpec)

  // What a client submits: an R2 repository is never named by the client.
  datatype DesiredData = WantLocal(repository: string) | WantR2

  datatype DesiredSpec = DesiredSpec(compute: ComputeSpec, process: ProcessSpec, data: DesiredData)

  datatype DomainError =
    | InvalidSpec
    | BackendImmutable
    | RepositoryImmutable
    | R2Unavailable
    | ServerArchived
    | MustBeStopped
    | GenerationOverflow

  // The largest generation the database column holds.
  const MAX_GENERATION: nat := 0x7fff_ffff_ffff_ffff

  predicate ValidSpec(spec: Spec) {
    && spec.process.image != ""
    && spec.process.hostPort != 0
    && spec.process.stopTimeout != 0
    && spec.process.acceptEula
    && spec.data.repository != ""
    && (spec.compute.Akamai? ==> spec.compute.firewall != 0)
  }

  /** One row of `servers`. */
  datatype Server = Server(
    generation: nat,
    desired: DesiredState,
    spec: Spec,
    current: Option<SnapshotId>,
    nextToken: nat,
    archivedAt: Option<nat>,
    createdAt: nat,
    updatedAt: nat)

  function Max(a: nat, b: nat): nat {
    if a < b then b else a
  }

  // Storage a wish would be content with.
  predicate Asks(wanted: DesiredData, data: DataSpec) {
    match wanted
    case WantLocal(repository) => data == DataSpec(LocalRestic, repository)
    case WantR2 => data.backend == R2Restic
  }

  // Where a server's data lives: chosen once, then only confirmed.
  function StorageFor(wanted: DesiredData, existing: Option<DataSpec>, r2: Option<string>)
    : (r: Result<DataSpec, DomainError>)
    ensures r.Ok? ==> Asks(wanted, r.value)
    ensures existing.Some? ==> (r.Ok? <==> Asks(wanted, existing.value)) && (r.Ok? ==> r.value == existing.value)
    ensures existing.None? ==> (r.Err? <==> wanted.WantR2? && r2.None?) && (r.Err? ==> r.error == R2Unavailable)
    ensures existing.None? && wanted.WantR2? && r.Ok? ==> r2 == Some(r.value.repository)
    ensures existing.Some? && r.Err? ==>
              r.error == (if wanted.WantLocal? && existing.value.backend == LocalRestic then RepositoryImmutable
                  else BackendImmutable)
  {
    match wanted
    case WantLocal(repository) =>
      (match existing
       case Some(d) =>
         if d.backend != LocalRestic then Err(BackendImmutable)
         else if d.repository != repository then Err(RepositoryImmutable)
         else Ok(d)
       case None => Ok(DataSpec(LocalRestic, repository)))
    case WantR2 =>
      (match existing
       case Some(d) => if d.backend == R2Restic then Ok(DataSpec(R2Restic, d.repository)) else Err(BackendImmutable)
       case None => if r2.Some? then Ok(DataSpec(R2Restic, r2.value)) else Err(R2Unavailable))
  }

  /** `DesiredServerSpec::resolve`: what the client wants, on the storage the server has. */
  function Resolve(wanted: DesiredSpec, existing: Option<DataSpec>, r2: Option<string>): (r: Result<Spec, DomainError>)
    ensures r.Ok? ==> ValidSpec(r.value) && r.value.compute == wanted.compute && r.value.process == wanted.process
    ensures r.Ok? ==> Asks(wanted.data, r.value.data) && (existing.Some? ==> r.value.data == existing.value)
    ensures existing.Some? && !Asks(wanted.data, existing.value) ==>
        r.Err? && r.error in {BackendImmutable, RepositoryImmutable}
    ensures existing.None? && wanted.data.WantR2? && r2.None? ==> r == Err(R2Unavailable)
    ensures r == Err(InvalidSpec) <==>
              var data := StorageFor(wanted.data, existing, r2);
              data.Ok? && !ValidSpec(Spec(wanted.compute, wanted.process, data.value))
    ensures r.Err? && r.error != InvalidSpec ==> StorageFor(wanted.data, existing, r2) == Err(r.error)
  {
    var data := StorageFor(wanted.data, existing, r2);
    if data.Err? then Err(data.error)
    else
      var spec := Spec(wanted.compute, wanted.process, data.value);
      if ValidSpec(spec) then Ok(spec) else Err(InvalidSpec)
  }

  /** Asking again for what a server has confirms it, whatever R2 configuration there is now;
      and nothing else leaves its storage as it is. */
  lemma ResolveConfirms(spec: Spec, wanted: DesiredSpec, r2: Option<string>)
    requires ValidSpec(spec)
    ensures Resolve(wanted, Some(spec.data), r2) == Ok(spec) <==>
              wanted.compute == spec.compute && wanted.process == spec.process && Asks(wanted.data, spec.data)
  {
    assert Spec(spec.compute, spec.process, spec.data) == spec;
  }

  // A transition of a local `Server` value: `None` means nothing had to change.
  type Edit = Result<Option<Server>, DomainError>

  function NextGeneration(s: Server, s': Server, now: nat): Edit {
    if s.generation >= MAX_GENERATION then Err(GenerationOverflow)
    else Ok(Some(s'.(generation := s.generation + 1, updatedAt := Max(s.updatedAt, now))))
  }

  function SetDesired(s: Server, desired: DesiredState, now: nat): Edit {
    if s.archivedAt.Some? then Err(ServerArchived)
    else if s.desired == desired then Ok(None)
    else NextGeneration(s, s.(desired := desired), now)
  }

  function SetSpec(s: Server, spec: Spec, now: nat): Edit {
    if !ValidSpec(spec) then Err(InvalidSpec)
    else if s.archivedAt.Some? then Err(ServerArchived)
    else if s.spec == spec then Ok(None)
    else if s.desired != Stopped then Err(MustBeStopped)
    else NextGeneration(s, s.(spec := spec), now)
  }

  function SetArchived(s: Server, now: nat): Edit {
    if s.archivedAt.Some? then Ok(None)
    else if s.desired != Stopped then Err(MustBeStopped)
    else NextGeneration(s, s.(archivedAt := Some(Max(s.updatedAt, now))), now)
  }

  // Whether something outside goes wrong; nothing does while it is calm.
  method Fails(calm: bool) returns (b: bool)
    ensures calm ==> !b
  {
    b := *;
    if calm {
      b := false;
    }
  }
}
