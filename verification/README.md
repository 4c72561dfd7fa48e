# Verified model of the mcserver control plane and node agent

A Minecraft server here is a row with a desired state. One reconcile worker
turns it into instances: it allocates a machine, has the node agent restore the
last snapshot, start the process, stop it, take a snapshot, publish it, clean up,
and deletes the machine. State is spread over SQLite rows, agent sessions, the
agent's disk and container, a restic repository and the provider's VMs; every
call can fail before or after its effect. This project models that protocol and
proves that the world is never lost, forked or rolled back, and that the worker
arrives.

## How it is built

* `Domain`, `Database`, `History`: the rows of one server, every SQL statement or
  transaction as one atomic step, and what holds over runs of arbitrary
  statements with arbitrary clocks. A row's position stands for its UUID.
* `Store`: the two multi-statement transactions and the compare-and-swap loops of
  the server service, step by step, against any other writers.
* `Lifecycle`, `Safety`, `WorldLineage`: the whole system as a transition system
  with the history of `/data`, its invariant, and the theorems over all runs.
* `Interference`, `Convergence`, `Steps`, `Reconciler`, `Executor`: the worker and
  the agent's command handlers as imperative code. Between any two accesses every
  other party may take any steps it can take. `Reconciler.Plane` records the run,
  so everything the code does is a run of the transition system and inherits its
  theorems. With `calm` set nothing fails and nobody else acts (agents may still
  connect and disconnect between transitions): that is the setting of the
  convergence result.
* `Provider`, `Enrolment`, `Credentials`, `RestoreSwap`, `Framing`, `Session`,
  `Retry`: provider machines, certificate enrolment, the agent's credential files,
  the restore swap, frames and sessions, and retry bookkeeping.

Nondeterministic choices in the methods stand for clocks, failures, lost answers,
other parties and scheduling.

## What turned out not to hold as one might state it

* An enrolment answer can be written after the first accepted registration: two
  requests race, and the one that recorded the certificate is answered last
  (`Enrolment.LateAnswer`, a run). A request can be answered then if and only if
  it had been decided before (`Enrolment.WrittenAfterRegistrationIff`).
* A machine can be locked out by a power loss if an earlier process died between
  renaming a credential file and syncing the directory
  (`Credentials.LockOutExample`, a run). `Credentials.PowerLossIff` gives the exact
  condition, over everything that may survive and everything that may still
  arrive. Process crashes alone never lock it out.
* Deleting a compute can leave a VM under its label if the provider lost the
  recorded one and an unrecorded replacement exists (`Provider.StrayExample`, a
  run); `Provider.DeleteLeavesStrayOnly` shows that this is the only case.

## Assumptions

* There is one reconcile worker, and every SQL statement or transaction is atomic.
* An agent executes one command at a time, and a command in flight takes effect
  before the next session of that agent registers, or never.
* One agent process works on a disk at a time, and a machine the provider reports
  as gone is gone.
* restic hands out each snapshot id once. A create or delete at the provider takes
  effect before its answer or never, and ids are not reused.
* Certificates are unexpired. Encoded JSON contains no raw newline.

## Model

| member | source | states |
|---|---|---|
| `Domain.Resolve` | crates/mcserver-control-plane/src/domain/server.rs:292-331 | a resolved spec keeps an existing server's storage, is valid and is what the client asked for; a different backend or repository, missing R2 settings and an invalid spec each give their own error, and nothing else does |
| `Domain.ResolveConfirms` | crates/mcserver-control-plane/src/domain/server.rs:292-331 | for an existing server resolving gives the spec it has if and only if the client asks for the same compute, process and storage, whatever R2 configuration there is now |
| `Database.ExecKeepsInv` | migrations/0001_initial.sql:41-64 | every statement, with any arguments and any clock, keeps the CHECK and UNIQUE clauses, the fence (one active instance, tokens in order), the source chain and the one-repository rule |
| `Database.CreateInstanceKeeps` | crates/mcserver-control-plane/src/infrastructure/server_instance_repository.rs:92-169 | inserting an instance keeps all of that: the new row has the next token, starts from the current snapshot, and its time lies after every earlier instance |
| `Database.CommitKeeps` | crates/mcserver-control-plane/src/infrastructure/snapshot_repository.rs:36-153 | so does publishing: instance, server and snapshot row move together |
| `Database.CommitIffNewest` | crates/mcserver-control-plane/src/infrastructure/snapshot_repository.rs:27-77 | under the fence a commit publishes if and only if it comes from the newest instance, still active and unpublished, with its own token and a new valid id |
| `Database.RefusedIff` | crates/mcserver-control-plane/src/infrastructure/snapshot_repository.rs:27-77 | every refusal and the repeated commit are answered if and only if the rows say so, a stale one as stale even if it has published |
| `Database.UpdateInstanceKeeps` | crates/mcserver-control-plane/src/infrastructure/server_instance_repository.rs:204-340 | and so does each guarded update of an instance row |
| `Database.UpdateComputeKeeps` | crates/mcserver-control-plane/src/infrastructure/compute_instance_repository.rs:427-478 | and each guarded update of a compute row |
| `Database.EditKeeps` | crates/mcserver-control-plane/src/infrastructure/server_repository.rs:152-234 | and each compare-and-swap of the server row, computed from a row read at any earlier time |
| `Database.EditChecks` | crates/mcserver-control-plane/src/domain/server.rs:414-474 | an edit that lands raises the generation by one and leaves snapshot, next token and storage alone; archiving needs no active instance |
| `History.RunKeepsPromises` | migrations/0001_initial.sql:123-154 | in every run of any statements all databases keep those promises; tokens, specs and sources never change, and a stop request, result or shutdown once set stays as it is |
| `History.FencedPublication` | crates/mcserver-control-plane/src/infrastructure/snapshot_repository.rs:36-153 | in every reachable database at most one instance is active and it has the highest token below the next one; the current snapshot is the highest-token publisher's, and each instance's source is the nearest earlier publisher's |
| `History.CommitOnce` | crates/mcserver-control-plane/src/infrastructure/snapshot_repository.rs:63-95 | at every time after a commit published, repeating it is recognised while the instance is active, that instance never publishes another snapshot, and no instance ever publishes that id again |
| `History.ClockRobust` | crates/mcserver-control-plane/src/domain/server_instance.rs:149-174 | with clocks that stall or run backwards every instance and compute row decodes, lifetimes are disjoint and in token order, and each snapshot time lies between its instance's creation and its end |
| `History.CheckedComputesDecode` | crates/mcserver-control-plane/src/domain/compute_instance.rs:207-230 | a compute row that meets the CHECK clauses passes every time check of its decoder |
| `History.ArchiveIsPermanent` | crates/mcserver-control-plane/src/infrastructure/server_repository.rs:201-234 | once archived, the server row and its instances never change again and none is active, whatever statements follow |
| `History.NoLostUpdate` | crates/mcserver-control-plane/src/infrastructure/server_repository.rs:152-199 | of two edits that land the later one read a later generation; each was computed from the columns the row still had, and a concurrently published snapshot stays |
| `History.SpecAtGeneration` | crates/mcserver-control-plane/src/infrastructure/server_instance_repository.rs:127-136 | an instance's spec is the spec the server had at the generation the instance records, and every spec ever held names the same storage |
| `Store.Tables.CreateForRunningServer` | crates/mcserver-control-plane/src/infrastructure/server_instance_repository.rs:92-169 | the transaction equals its one-step specification; a row appears exactly if the server should run and nothing is active, with a token above all others |
| `Store.Tables.Commit` | crates/mcserver-control-plane/src/infrastructure/snapshot_repository.rs:20-154 | the transaction equals its one-step specification or leaves no trace; success makes this instance the newest publisher and its snapshot current; every refusal is the stated one, and only a failing database aborts it |
| `Store.Tables.Change` | crates/mcserver-control-plane/src/application/server_service.rs:121-211 | against any interleaving a call changes the row at most once and never when it reports an error; its one winning write has exactly the requested effect on the row as it was, at the expected generation if one was given; it gives up only after three lost attempts; undisturbed it lands, finds nothing to do, or answers each error if and only if the row's own columns say so |
| `Store.EditDecides` | crates/mcserver-control-plane/src/domain/server.rs:414-474 | for each of the three requests, from the columns alone: a state is set exactly on an unarchived server in the other state with a generation left; a spec exactly if it resolves to another one on an unarchived stopped server; a server is archived exactly if stopped, unarchived and without active instance; every error has its own condition |
| `Store.Tables.Attempt` | crates/mcserver-control-plane/src/application/server_service.rs:50-97 | one round of read, edit and compare-and-swap, with the same guarantees |
| `Store.GenerationWonOnce` | crates/mcserver-control-plane/src/application/server_service.rs:141-165 | two changes that both land found different generations, so two calls expecting the same one cannot both succeed |
| `Store.EditGrants` | crates/mcserver-control-plane/src/domain/server.rs:414-474 | a landed edit grants the request and changes no column the request is not about |
| `Safety.StepKeeps` | crates/mcserver-control-plane/src/reconciliation.rs:282-564 | every event of reconciler, client, agent, process and provider, including lost replies and crashes, keeps the invariant that ties rows, machines, repository and history together |
| `WorldLineage.RunIsSafe` | crates/mcserver-control-plane/src/reconciliation.rs:268-564 | every state of every run satisfies that invariant |
| `WorldLineage.RestoredIsWhatWasLeft` | crates/mcserver-control-plane/src/reconciliation.rs:366-419 | data on a prepared, unpublished machine is what the latest earlier started instance left (empty if none), or what its own process made of it |
| `WorldLineage.PriorIsLeft` | crates/mcserver-node-agent/src/executor.rs:72-113 | the contents the invariant speaks of are the last entry of the latest earlier instance in the plain history |
| `WorldLineage.LastBeforeIsLatest` | crates/mcserver-node-agent/src/executor.rs:72-113 | that entry belongs to the latest earlier instance whose process ever started |
| `WorldLineage.HistoryIsLinear` | crates/mcserver-node-agent/src/executor.rs:115-151 | contents change only through a process of the newest instance acting on the newest contents, and a starting process finds exactly those |
| `WorldLineage.NothingUnsavedIsDiscarded` | crates/mcserver-control-plane/src/reconciliation.rs:448-563 | whenever a cleanup is sent or carried out or a machine is deleted, no process of the instance ever started or its final contents are in its published snapshot |
| `WorldLineage.NoRunAfterSnapshot` | crates/mcserver-node-agent/src/executor.rs:178-229 | when restic takes a snapshot, whether or not the agent lives to record or report it, no process of that instance runs on any machine; from then on none ever runs and the instance adds nothing to the history |
| `WorldLineage.NoRunOnceRecorded` | crates/mcserver-node-agent/src/executor.rs:199-204 | in particular so from the moment an agent has recorded a snapshot of the instance |
| `WorldLineage.CompletionIsSafe` | crates/mcserver-control-plane/src/reconciliation.rs:429-447 | an instance that is over never had prepared data or published it, and no instance ever has two compute records |
| `WorldLineage.ComputeIsAsSpecified` | crates/mcserver-control-plane/src/infrastructure/compute_instance_repository.rs:121-172 | a compute is a VM exactly if its instance's spec asks for one |
| `WorldLineage.NoStartingOver` | crates/mcserver-control-plane/src/infrastructure/akamai_compute.rs:285-390 | once data is on record as prepared no restore is sent and no replacement VM is created; once a shutdown is on record no machine is created; a start is sent only when prepared is on record |
| `WorldLineage.TerminatedMeansGone` | crates/mcserver-control-plane/src/infrastructure/akamai_compute.rs:505-522 | at every moment of every run a terminated compute has no machine, except a VM under its label that is not the recorded one |
| `WorldLineage.NothingLeftRunning` | crates/mcserver-control-plane/src/infrastructure/local_compute.rs:362-383 | so whenever no instance is active no machine is left but such VMs |
| `WorldLineage.RowsMoveForward` | crates/mcserver-control-plane/src/infrastructure/compute_instance_repository.rs:121-172 | rows only move forward over runs of the whole system |
| `WorldLineage.CommitNeverConflicts` | crates/mcserver-control-plane/src/infrastructure/snapshot_repository.rs:63-77 | committing what an agent recorded for the active unpublished instance always publishes it: the conflict branches are unreachable for the single worker |
| `Interference.EnvironmentRely` | crates/mcserver-control-plane/src/reconciliation.rs:329-423 | nothing another party can do while the worker waits invalidates what the worker has read: rows, machine identity, and the disk of an idle machine |
| `Executor.StartServer` | crates/mcserver-node-agent/src/executor.rs:115-151 | each step is a possible event whatever happens in between, with podman failing before or after it took effect; success means the container runs; undisturbed it starts exactly the prepared instance, reports a change exactly if it was down, and refuses any other |
| `Executor.StopServer` | crates/mcserver-node-agent/src/executor.rs:153-176 | each step is a possible event, with podman failing before or after it took effect; success means it does not run; undisturbed it refuses only another instance and reports a change exactly if it was running |
| `Executor.SnapshotData` | crates/mcserver-node-agent/src/executor.rs:178-229 | each step is a possible event; an answer names a snapshot of exactly the data on disk whose id is already stored; undisturbed it refuses exactly another instance or a running process |
| `Executor.RestoreData` | crates/mcserver-node-agent/src/executor.rs:72-113 | each step is a possible event; success means the stored state is this instance's, and fresh data is the source snapshot's; undisturbed a bare machine is prepared, a prepared one left alone, another's refused |
| `Executor.CleanupInstance` | crates/mcserver-node-agent/src/executor.rs:231-250 | each step is a possible event; success means nothing is left; undisturbed a change is reported exactly if there was something, and only another instance is refused |
| `Convergence.Rank` | crates/mcserver-control-plane/src/reconciliation.rs:268-280 | the distance to the desired state is always below the bound on immediate transitions |
| `Steps.EnsuredRank` | crates/mcserver-control-plane/src/infrastructure/akamai_compute.rs:328-355 | a change reported by ensuring the machine lowers the rank |
| `Steps.NotedRank` | crates/mcserver-control-plane/src/reconciliation.rs:584-605 | an observation written down lowers the rank |
| `Steps.SteppedRank` | crates/mcserver-control-plane/src/reconciliation.rs:381-419 | a command carried out and recorded lowers the rank |
| `Steps.SavedRank` | crates/mcserver-control-plane/src/reconciliation.rs:506-543 | a published snapshot lowers the rank |
| `Steps.CleanedRank` | crates/mcserver-control-plane/src/reconciliation.rs:545-563 | a cleaned or deleted machine lowers the rank |
| `Steps.ExpiredRank` | crates/mcserver-control-plane/src/reconciliation.rs:343-362 | a lifetime stop lowers the rank, whenever the clock trips it |
| `Steps.RequestedRank` | crates/mcserver-control-plane/src/reconciliation.rs:311-322 | a stop request lowers the rank |
| `Steps.SourceStored` | crates/mcserver-node-agent/src/executor.rs:291-352 | the snapshot an instance starts from is always in the repository |
| `Reconciler.Plane.Pause` | crates/mcserver-control-plane/src/reconciliation.rs:329-564 | an arbitrary number of steps of others, each a possible event, leaves the worker's footing intact |
| `Reconciler.Plane.Call` | crates/mcserver-control-plane/src/agent/registry.rs:63-102 | one command with its answer lost, late, an error or given: an answer belongs to this command and is taken if it is there; undisturbed the command takes its full effect |
| `Reconciler.Plane.Receive` | crates/mcserver-control-plane/src/agent/server.rs:707-728 | whatever happens meanwhile: an answer or an error from the agent leaves the session to others, anything else ends it |
| `Reconciler.Plane.Ensure` | crates/mcserver-control-plane/src/infrastructure/local_compute.rs:271-328 | row and machine exist afterwards; undisturbed a change is reported if and only if row, machine, its record or a local agent process was missing, and an error if and only if prepared data went with a VM; otherwise nothing changes |
| `Reconciler.Plane.Delete` | crates/mcserver-control-plane/src/infrastructure/local_compute.rs:330-383 | shutdown on record, then the machine, then the row; under any interference success means the row is terminated and no machine is left that its record leads to; undisturbed exactly that machine is gone |
| `Reconciler.Plane.PersistObservations` | crates/mcserver-control-plane/src/reconciliation.rs:584-605 | reports a change exactly if the row lacked what the agent reported, and writes that down |
| `Reconciler.Plane.Publish` | crates/mcserver-control-plane/src/reconciliation.rs:506-543 | a successful commit makes the snapshot current and the instance's result |
| `Reconciler.Plane.RunMachine` | crates/mcserver-control-plane/src/reconciliation.rs:366-422 | for a connected, running instance: safe under interference; undisturbed, progress, or settled, or data lost |
| `Reconciler.Plane.StopMachine` | crates/mcserver-control-plane/src/reconciliation.rs:482-504 | for a connected, stopping instance, up to the stop command: the same |
| `Reconciler.Plane.Conclude` | crates/mcserver-control-plane/src/reconciliation.rs:506-563 | publish or take a snapshot, clean up, delete: the same |
| `Reconciler.Plane.ExpireStep` | crates/mcserver-control-plane/src/reconciliation.rs:343-362 | the lifetime stop goes through the same compare-and-swap as a client's and is the only edit of the server row the worker ever sends, at whatever interference: always of a running server whose VM is past its lifetime |
| `Reconciler.Plane.ReconcileRunning` | crates/mcserver-control-plane/src/reconciliation.rs:329-423 | every step is a possible event of the transition system under any interference; undisturbed, Changed lowers the rank, Stable means settled, Awaiting means no session, an error means stuck; the server is stopped if and only if nothing had to be ensured, its machine is a VM past its lifetime and a generation is left |
| `Reconciler.Plane.ReconcileStopping` | crates/mcserver-control-plane/src/reconciliation.rs:424-564 | the same for a stopping instance |
| `Reconciler.Plane.ReconcileOnce` | crates/mcserver-control-plane/src/reconciliation.rs:282-327 | the same for one transition from any reachable state |
| `Reconciler.Plane.ReconcileUntilBlocked` | crates/mcserver-control-plane/src/reconciliation.rs:268-280 | under any interference every step is a possible event; undisturbed, DidNotConverge is unreachable from any reachable state whose registered sessions are live with no command outstanding, whatever agents without a session still work off: the loop ends settled, with no machine left but unrecorded strays if the server is to be down, waiting for an agent, out of generations, or because prepared data that was never saved is gone |
| `Provider.TargetIff` | crates/mcserver-control-plane/src/infrastructure/akamai_compute.rs:480-512 | looking up what to delete fails if and only if the recorded or the only labelled machine is someone else's or several carry the label, and otherwise names the recorded machine or the one under the label |
| `Provider.DeleteLeavesStrayOnly` | crates/mcserver-control-plane/src/infrastructure/akamai_compute.rs:480-512 | an undisturbed delete leaves a machine under the label if and only if the recorded machine is gone and an unrecorded one stands in its place |
| `Provider.StrayExample` | crates/mcserver-control-plane/src/infrastructure/akamai_compute.rs:480-512 | a run from an empty cloud in which that happens: recorded machine lost, replacement created, its answer lost, row terminated with the machine left |
| `Provider.OneMachinePerRow` | crates/mcserver-control-plane/src/infrastructure/akamai_compute.rs:357-436 | at every moment of every run, with restarts, lost answers and lost machines, at most one machine carries a row's label and tags; with no machine lost a terminated row has none |
| `Provider.CapHolds` | crates/mcserver-control-plane/src/infrastructure/akamai_compute.rs:357-436 | from any moment within the cap, every later moment is |
| `Provider.NoneAfterShutdown` | crates/mcserver-control-plane/src/infrastructure/akamai_compute.rs:456-478 | once a shutdown or prepared data is on record it stays and no machine is created for that row again |
| `Provider.ByLabel` | crates/mcserver-control-plane/src/infrastructure/akamai_compute.rs:594-627 | none, the one machine, or an error, exactly as many machines carry the label |
| `Provider.Akamai.FindOrCreate` | crates/mcserver-control-plane/src/infrastructure/akamai_compute.rs:357-436 | the count never passes the cap through it; undisturbed, from the machines alone: the one machine under the label, or, if there is none, the data unprepared and the cap not reached, exactly one new machine with label and tags; duplicate, foreign, lost and limit errors each if and only if that is the case, and then nothing changes |
| `Provider.Akamai.EnsureForInstance` | crates/mcserver-control-plane/src/infrastructure/akamai_compute.rs:232-355 | keeps one machine per row and the cap under lost answers; nothing is created for prepared data; if no machine is lost the recorded one is the only one; undisturbed it keeps the recorded machine exactly if it is there and ours, refuses exactly a foreign one, and otherwise ends as the search under the label does |
| `Provider.Akamai.Delete` | crates/mcserver-control-plane/src/infrastructure/akamai_compute.rs:456-522 | terminates the row only after its machine is gone, unless a stray stood under the label; never a stray if no machine is lost; undisturbed it takes away exactly the recorded machine, or all under the label if none is recorded, and fails exactly on foreign or duplicate machines |
| `Provider.Akamai.Discard` | crates/mcserver-control-plane/src/infrastructure/akamai_compute.rs:480-512 | under any interference the lookup and delete leave a machine under the label exactly if a stray stood there when it began |
| `Provider.Akamai.ReapOrphans` | crates/mcserver-control-plane/src/infrastructure/akamai_compute.rs:169-230 | once it is through, every tagged machine belongs to the active row that names it; if no machine is lost it deletes none of ours |
| `Provider.Akamai.Serve` | crates/mcserver-control-plane/src/infrastructure/akamai_compute.rs:107-117 | passes preflight exactly if the managed machines are within the cap, and does nothing otherwise; after that the cap holds at every moment of whatever operations follow, complete or cut short, and the three run theorems hold of them |
| `Enrolment.EnrolmentAgreement` | crates/mcserver-control-plane/src/agent/server.rs:457-551 | all answers written in any interleaving of any number of requests are one and the same, bound to one signing request and to the row's own token |
| `Enrolment.WrittenAfterRegistrationIff` | crates/mcserver-control-plane/src/infrastructure/compute_instance_repository.rs:384-418 | after an accepted registration a request can still get its answer, in some continuation, if and only if it was decided and not yet answered before |
| `Enrolment.NoneDecidedAfterRegistration` | crates/mcserver-control-plane/src/agent/server.rs:457-551 | no request undecided at an accepted registration is ever decided or answered |
| `Enrolment.LateAnswer` | crates/mcserver-control-plane/src/agent/server.rs:541-549 | a run of two racing requests: the first records the certificate, the second is answered with it and registers, and then the first is answered; the literal claim that no answer follows a registration fails |
| `Enrolment.Endpoint.HandleEnrolment` | crates/mcserver-control-plane/src/agent/server.rs:433-551 | whoever asks gets the row's one certificate and token for their own request or nothing; nothing at all if the request starts after a registration was accepted; undisturbed exactly the first request and its repetitions are answered |
| `Credentials.PowerLossIff` | crates/mcserver-node-agent/src/transport.rs:262-316 | whatever part of the unsynced files survives a power loss and whatever pending enrolments and registrations still arrive in any order, the machine can get in if and only if a condition on the synced files, the row and what is pending holds |
| `Credentials.StepKeeps` | crates/mcserver-node-agent/src/transport.rs:53-109 | every step of agent, control plane and reconciler keeps the machine recoverable; a power loss does where that condition holds |
| `Credentials.NoLockOut` | crates/mcserver-node-agent/src/transport.rs:53-109 | so over every life of a machine, with crashes anywhere and power losses where the condition holds, at every moment the files open a session or enrolling again succeeds |
| `Credentials.TidyIsNeverLockedOut` | crates/mcserver-node-agent/src/transport.rs:300-314 | if no process dies between rename and directory sync, power losses at any moment, that gap included, never lock the machine out, now or when pending requests arrive |
| `Credentials.LockOutExample` | crates/mcserver-node-agent/src/transport.rs:300-314 | a twelve-step life that ends locked out: token renamed, process dead before the directory sync, successor registered, power lost |
| `Credentials.Machine.Persist` | crates/mcserver-node-agent/src/transport.rs:262-316 | write, sync, rename, sync of the directory, with a crash before or after each and a power loss in the gap; if it returns, exactly that file is there and synced |
| `Credentials.Machine.LoadOrCreateCsr` | crates/mcserver-node-agent/src/transport.rs:398-443 | key before request; a stored request is reused; the machine stays recoverable wherever it stops |
| `Credentials.Machine.Start` | crates/mcserver-node-agent/src/transport.rs:53-77 | wherever the agent dies, what is left can get in; undisturbed it gets in with credentials that match the row |
| `Credentials.Machine.Live` | crates/mcserver-node-agent/src/transport.rs:53-109 | over any number of starts, crashes, lost answers, and power losses where what matters is synced (everywhere, if no process dies between rename and sync), the machine is never locked out and gets in once left alone |
| `RestoreSwap.Disk.RestoreSnapshot` | crates/mcserver-node-agent/src/executor.rs:291-352 | interrupted anywhere, old data is in place or complete beside it; success leaves exactly the snapshot; every move finds a free destination |
| `RestoreSwap.Disk.Exchange` | crates/mcserver-node-agent/src/executor.rs:331-350 | for every way the three renames can go, with or without effect, where old and new data end up: old data that was moved aside is back in its place unless moving it back fails too |
| `RestoreSwap.Disk.RestoreData` | crates/mcserver-node-agent/src/executor.rs:72-113 | prepared is stored only when the data is all there, and a second call changes nothing |
| `RestoreSwap.Disk.Attempts` | crates/mcserver-node-agent/src/executor.rs:72-113 | after any number of interrupted runs one that is let through leaves the wanted data, prepared |
| `Framing.Reader.ReadFrame` | crates/mcserver-control-plane/src/agent/server.rs:791-820 | for every way the stream is cut the same frame, and a failure exactly when it exceeds the maximum |
| `Framing.Reader.ReadFrames` | crates/mcserver-node-agent/src/transport.rs:782-811 | the frames read are those of the bytes, up to the first that is too long |
| `Framing.FramesOfLines` | crates/mcserver-control-plane/src/agent/server.rs:844-858 | what is written line by line is read back frame by frame |
| `Framing.FramesRejoin` | crates/mcserver-control-plane/src/agent/server.rs:791-820 | no byte is lost or moved between frames |
| `Framing.FirstFrameEnds` | crates/mcserver-control-plane/src/agent/server.rs:791-820 | a frame ends at its only line feed, or with the stream |
| `Framing.TrimIsInverseIff` | crates/mcserver-control-plane/src/agent/server.rs:822-825 | trimming returns the payload if and only if it does not end in a carriage return |
| `Framing.TrimTakesOneEnding` | crates/mcserver-control-plane/src/agent/server.rs:822-825 | LF, CR LF or a lone CR is taken off once, and a line without ending is left as it is |
| `Session.Verdict` | crates/mcserver-control-plane/src/agent/server.rs:668-705 | the answer is a value if and only if the frame is a response of the right version with this request's id and that value, and a remote error if and only if it is such a response with that error |
| `Session.IdsDiffer` | crates/mcserver-control-plane/src/agent/server.rs:661-663 | no two of the next 2^64 - 1 requests of a session share an id, the wrap-around included |
| `Session.LineReadBack` | crates/mcserver-control-plane/src/agent/server.rs:844-858 | an encoded message written as a line is one frame, and trimming and decoding it gives the message back |
| `Session.Connection.ReadReply` | crates/mcserver-control-plane/src/agent/server.rs:791-842 | however the bytes are cut, the verdict is that of the first frame's message; a whole line within the maximum is read to its end, a longer one is a protocol error |
| `Session.Connection.Perform` | crates/mcserver-control-plane/src/agent/server.rs:654-729 | one command in flight at a time, over bytes cut anywhere, each with the next id; with an honest agent a success is the agent's result for this very command; a doubtful stream ends the session; undisturbed the caller gets exactly what an honest agent said, value or error, unless its line is too long |
| `Session.Connection.Run` | crates/mcserver-control-plane/src/agent/server.rs:654-729 | answers in order, ids counting up, nothing sent after the session broke, every success matched to its own command; undisturbed each answer is exactly what the honest agent said for that command, and the queue ends early only at an answer whose line exceeds the maximum |
| `Session.RegistryIsNewest` | crates/mcserver-control-plane/src/agent/registry.rs:30-55 | an agent's entry is its newest connection exactly as long as that one lasts, however connections overlap |
| `Session.Registry.Register` | crates/mcserver-control-plane/src/agent/registry.rs:30-41 | keeps the entry equal to the history's verdict and touches no other agent |
| `Session.Registry.Unregister` | crates/mcserver-control-plane/src/agent/registry.rs:42-55 | takes away only the connection that ended |
| `Retry.DelaysDouble` | crates/mcserver-control-plane/src/reconciliation.rs:633-639 | the delay is the retry interval after the first failure, doubles with each of the next six, then stays, and is never more than five minutes; the shift and its overflow case compute exactly that |
| `Retry.DelaysAreBoundedAndGrow` | crates/mcserver-control-plane/src/reconciliation.rs:633-639 | error delays lie between the retry interval and five minutes and never shrink as failures grow |
| `Retry.ScheduleIsOk` | crates/mcserver-control-plane/src/reconciliation.rs:204-246 | the record after a run has the saturating count of errors since the last non-error, and is due exactly the interval after a waiting run, the back-off of that count after an error, or the provider's own wish within its limits |
| `Retry.Worker.Reconcile` | crates/mcserver-control-plane/src/reconciliation.rs:204-246 | one run of one server keeps the books and touches no other server |
| `Retry.Worker.RetryTick` | crates/mcserver-control-plane/src/reconciliation.rs:130-149 | exactly the servers that are due run, each once |
| `Retry.Worker.Resync` | crates/mcserver-control-plane/src/reconciliation.rs:150-178 | each listed server runs once unless its retry is still to come; no other does |
| `Retry.Worker.Handle` | crates/mcserver-control-plane/src/reconciliation.rs:110-178 | a notification runs its server, a tick exactly those that are due, a resync exactly the listed ones without a retry to come, each once, and nobody else |
| `Retry.Worker.Run` | crates/mcserver-control-plane/src/reconciliation.rs:110-186 | for every sequence of arrivals, exactly the servers whose last run failed or waits are pending, with the right failure count |

## Left out

- HTTP, TLS, OpenSSL, Podman, restic, systemd and `/proc`: each is an abstract call with a stated effect and failures before or after it.
- JSON encoding, JSON-RPC dispatch, CLI, configuration and environment parsing: they turn text into the values the model starts from and keep no state between calls; the session model takes any encoder and decoder that are inverse to each other and emit no line feed.
- Texts of `last_error` and `failure_message`, server names, and creation of a server by `apply`: they decide nothing in the protocol. `record_error` is a statement of the database model but not a step of the modelled worker.
- String and length rules of specs: one abstract validity predicate.
- 64-bit overflow of tokens, timestamps and provider ids: integers are unbounded, except generations, request ids and failure counts, which have their limits.
- Several servers at once: the database model is one server's slice; provider machines and retry bookkeeping range over all.
- The local provider's orphan reaper and its process tracking: a lost or restarted local machine is an event anyone may cause. If the control plane dies between spawning an agent and recording its process id, a second agent can be spawned on the same directory; the model excludes two agents on one disk.
- Provider configuration checks (region, type, image, firewall, disk encryption) and allow-lists: they only add errors.
- Cancellation, semaphores, listener loops and signals.
- Liveness beyond the calm setting, for example with half-open sessions.
- Reconciler.Plane.Call: the message sizes and timeouts of a call are not modelled; a call that times out is one whose answer is lost.
- Store.Tables.Change: one loop stands for the three loops of the server service, which differ only in the edit and in the archive checks.
- Credentials.Machine.Start: certificate expiry is not modelled.
