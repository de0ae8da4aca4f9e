# StageCore Hub: a Dafny model of its protocols

This project models the parts of the StageCore Hub whose guarantees span several functions, and proves
those guarantees for every input, every interleaving and every reachable state.

- **Assignments and the command fence.** `HubMachine` is one state machine for the whole v2 Stage Device
  protocol: SQL tables, socket and transition maps, and the program counters of every Dispatch, every
  acknowledgment and every assignment handshake. One action is one SQL statement or transaction, one critical
  section, or one write. Creating a command takes five steps (device record, assignment, lookup by idempotency
  key, insert, bind), and a result from the device takes four (socket, binding, row, unbind). Making a new socket
  current and closing the one it displaces are two steps, and so are the transaction of a commit and the close that
  ends its critical section: the lock keeps other critical sections out in between, but frames are written without
  it. `AssignmentCommits` says what each transaction does to the tables; the classes in `Repository` and
  `DeviceRuntime` are the same code in its imperative form, each method proved equal to one transaction or one
  action. What holds in every run is proved by topic. Frames: `CommandFence`, `FenceTheorems`, `FrameExactness`,
  `StaleFrame`. Assignment rows and their log: `AssignmentHistory`, `AuditReplay`, `Reservations`, `MoveGuards`. What
  the device itself said: `DeviceEvidence`, `SafeScopes`, `Generations`. Sockets and records: `Connections`,
  `Enrolment`. Commands: `CommandLife`, `CommandPath`. Handshakes: `HandshakeExclusion`, and `PreflightAgreement`,
  where an undisturbed handshake commits exactly when its preflight admits it and the device answers as asked.
  `LightingRebind` is the operator procedure on top, and `RebindRuns` what it does to a device in any run of the
  whole Hub.
- **Cues.** `CueGraph` gives walks along links and the depth-first search of a group; `CueForest` shows that
  author-time validation and the engine's own check agree; `CueShow` runs a whole show; `CueEngine` holds the
  recursive searches over shared maps; `CueOrder` says in which order a group is listed; `CuePolicy` is the stored
  policy; `ActionScheduler` runs the sequential, parallel and barrier modes for every completion order.
- **Companion execution window.** `ExecutionWindow` and `CompanionChannel`: a bounded first-in-first-out
  memory of executions, bound to sockets that can die or be displaced. A wire result takes two critical sections,
  its lookup and its finish; `LateWireResult` is a run that needs the time in between. `CompanionPath` follows one
  execution from the request to its result.
- **Firmware updates.** `FirmwareLifecycle` and `UpdateStore`: compare-and-swap on rows that were read earlier.
  `UpdateCompletion` says what cuts an update off, what brings it into each state, and that it completes.
- **Live lighting observations.** `ObservationGate`: a one-use challenge per device, and the comparison.
- **Canonical JSON.** `JsonText`, `JsonReader`, `CanonicalJson` and `JsonWriter`. `JsonSpelling` and `JsonGrammar` state
  the grammar of RFC 8259 as syntax trees and prove that the reader accepts exactly that; `CanonicalForm` says what the
  canonical text looks like.
- **Environment files.** `Environment` and `EnvironmentRendering`: parsing, editing one setting in place, rendering.
  `EnvironmentLines` spells out what a line says.

Assumptions: a transaction either commits or not, and the Hub knows which; generated ids and challenges are
fresh tokens; SHA-256 is injective on them; cue ids in one list are unique; time never runs backwards. Database
triggers and partial indexes are not relied on, apart from the one that inserts the assignment row of a new
device: the others can only refuse more. Assignments are committed through the runtime, except the legacy
migration.

What the code does not promise on all inputs, as the proofs show:

- A frame is exact, naming the ACTIVE scope and epoch of the moment it is written, if and only if no audited
  move of its device lies between its bind and its write (`FrameExactness.ExactUnlessMoved`). Such a move needs a
  command that was ended before its own Dispatch had written the frame
  (`FrameExactness.OnlyEarlyEndsLetMovesThrough`), and there are two ways to that: a second request with the same
  idempotency key is handed the running command and its caller then gives up waiting, or the device itself sends
  a result for a command it has not been sent (`FenceTheorems.EarlyHasCause`). `StaleFrame` gives two runs of the
  first kind: one writes on a displaced socket that is still open, the other on the device's current socket,
  between the transaction of a commit and the close that follows it.
- A canonical text that nests deeper than 10000 levels is not read back (`CanonicalJson.RoundTrip`).
- An environment value is stored exactly if and only if it is one line, trimmed, not in matching quotes, and its
  line is shorter than the 64 KiB buffer of the scanner (`Environment.EditStoresExactly`,
  `EnvironmentRendering.RenderReadsBack`).
- A value in matching quotes is such a value: `Environment.QuotedValueIsNotStored` edits a small file with one, and
  `EnvironmentRendering.QuotedSettingIsNotStored` renders one.
- A wire result finishes a record of its own socket if and only if its key has not been admitted again for another
  socket since the lookup (`ExecutionWindow.WireResultsCount`). `LateWireResult` gives a run in which the window of
  1024 executions turns over in between, and the late result of a displaced socket finishes the new record.
- Two Companions can share an execution key if and only if the id of one is the id of the other followed by a NUL
  and any further text (`ExecutionWindow.KeysCollideExactly`).

## Model

| member | source | states |
|---|---|---|
| `CommandFence.StepPreserves` | internal/devicechannel/runtime.go:292-349 | every action of the Hub keeps the fence: unless a commit is about to close it, an open current v2 socket holds, or is about to hold, exactly the stored ACTIVE scope, and a bound dispatch repeats scope and epoch of its socket |
| `CommandFence.RunKeepsFence` | internal/devicechannel/runtime.go:292-349 | the fence is kept along every run, from any state that has it |
| `FenceTheorems.CurrentSocketFence` | internal/devicechannel/transfer.go:106-131 | in every interleaving, a frame written to a device's current v2 socket names Project, snapshot and epoch of that device's ACTIVE row at that moment, unless it falls between the transaction of a commit and the close of that very socket |
| `FenceTheorems.EverySocketFence` | internal/devicechannel/runtime.go:292-349 | a frame on any open v2 socket, displaced ones included, names the ACTIVE scope and epoch, except for a command that was ended before its own Dispatch had written the frame |
| `FenceTheorems.EarlyHasCause` | internal/devicechannel/forwarder.go:150-183 | a command is ended ahead of its frame only after a duplicate request was handed it, or by a result the device sent ahead of the frame |
| `FenceTheorems.StepKeepsRow` | internal/devicechannel/runtime.go:873-916 | what the exception rests on: until its frame is out, the row of a command that nobody ended early stays ACCEPTED or its socket is closed, and so its scope stays ACTIVE |
| `FrameExactness.ExactUnlessMoved` | internal/devicechannel/runtime.go:305-347 | in every run, a frame on an open v2 socket names the stored ACTIVE scope and epoch if and only if no audited move of its device lies between its bind and its write |
| `FrameExactness.OnlyEarlyEndsLetMovesThrough` | internal/deviceexperience/assignment_commit.go:214-226 | a device is moved between bind and write only over a command that was ended early, and then the frame is stale |
| `StaleFrame.StaleFrameOnDisplacedSocket` | internal/devicechannel/runtime.go:408-416 | a concrete run with a duplicate request and its timeout writes a frame for a snapshot that is no longer the ACTIVE one, on a displaced socket |
| `StaleFrame.StaleFrameOnCurrentSocket` | internal/devicechannel/tablet_assignment.go:173-198 | the same on the current socket, after the transaction of a commit and before its close |
| `StaleFrame.TabletHandshakeMoves` | internal/devicechannel/tablet_assignment.go:34-198 | a handshake with an idle tablet that passes the preflight and answers safely does move the row, closes that socket and leaves nothing pending |
| `AssignmentHistory.StepIsHistory` | internal/deviceexperience/assignment_commit.go:227-278 | whatever one action does to the tables, it leaves rows and log alone, or enrols one device at epoch 1, or moves one row and appends the one audit row that replays that move |
| `AuditReplay.LogReplaysToRows` | internal/deviceexperience/tablet_assignment.go:284-316 | after any run, replaying a device's audit rows from its enrolled row gives its stored row, and each epoch from 2 to the current one was entered by exactly one row |
| `AuditReplay.OneScopePerEpoch` | internal/deviceexperience/legacy_v2_migration.go:122-148 | between any two moments of a run, within one epoch the Project never changes and the snapshot is set at most once; epochs never fall |
| `AuditReplay.ActiveLightingAuditedOnce` | internal/deviceexperience/lighting_activation.go:309-334 | after any run, an ACTIVE v2 lighting node has exactly one activation row for its scope |
| `AuditReplay.AuditRefusalNeverFires` | internal/deviceexperience/assignment_commit.go:178-190 | so on reachable states a transfer that passes all other checks is never refused for its audit count |
| `DeviceEvidence.EveryMoveHasEvidence` | internal/devicechannel/lighting_activation.go:146-206 | after any run, every audited handshake move is backed by the device's own safe answer to that challenge, on the socket generation the row names; an activation also by an all-zero epoch report of the same Project, epoch and generation |
| `DeviceEvidence.EpochReportCounts` | internal/deviceexperience/epoch_ack.go:29-59 | an epoch report is recorded if and only if it comes from the device's live socket on that socket's own generation, is all dark, and no other Project has the epoch |
| `SafeScopes.EnabledMeansSafe` | internal/devicechannel/lighting_activation.go:239-308 | after any run, behind every v2 socket that commands are enabled on stands a report of its own generation and scope in which the device was safe: a lighting node all dark with the configuration that the published snapshot binds, a StageLaser disarmed and off |
| `SafeScopes.SafeReportEnables` | internal/devicechannel/lighting_activation.go:239-308 | an undisturbed scope acknowledgment enables commands if and only if the report is acceptable and the socket is live and behind no transition |
| `Generations.MovesForceNewGeneration` | internal/devicechannel/lighting_activation.go:288-305 | after any run, a device's open current v2 socket, unless a commit is about to close it, is strictly newer than every move in its log, and commands for an epoch are enabled only on a socket strictly newer than the move into that epoch |
| `Connections.CurrentUntilOusted` | internal/devicechannel/runtime.go:873-916 | in every run a device's current socket stays current until it is itself unregistered or displaced by a newer one, or the Hub stops or restarts |
| `Connections.OustedGoes` | internal/devicechannel/runtime.go:873-916 | an unregistering socket takes the current entry of its device with it if and only if that entry is this socket |
| `Connections.NewSocketIsCurrent` | internal/devicechannel/runtime.go:843-871 | a known device connects whenever the Hub runs and a generation is left; the new socket is current, open, enabled for nothing, and of a generation above the counter; the displaced one stays as it is |
| `Connections.StoppedUntilRestart` | internal/devicechannel/runtime.go:174-194 | a stopped Hub has no current socket until it restarts, whatever connects or is asked for |
| `Connections.SocketsInRunsGoOn` | internal/devicechannel/runtime.go:843-916 | in every run, what one step does to each socket: which steps close it, which enable it, and that its device, protocol and generation never change |
| `Enrolment.RunKeepsEnlisted` | internal/deviceexperience/v2_bootstrap.go:25-155 | after any run, every v2 device record has an assignment row that a reconnect accepts, and no StageLaser audit is ahead of its row's epoch |
| `Enrolment.ReconnectsUnlessDisabled` | internal/deviceexperience/v2_bootstrap.go:25-155 | in every reachable state, a v2 hello is accepted from a new device, and from a known v2 one if and only if it repeats kind and profile and the device has not been disabled |
| `Enrolment.RecordsGoOn` | internal/deviceexperience/device.go:13-78 | in each step a device record is disabled, rewritten by a v1 hello of its own Project, migrated to v2, or left alone; a new one comes from a hello, together with its row |
| `HandshakeExclusion.OneAtATime` | internal/devicechannel/tablet_assignment.go:64-98 | in every run, two handshakes under way for one device are a blackout request and one other; while that other one is there no command is bound for the device, and no lighting probe runs beside the blackout request |
| `HandshakeExclusion.RequestGoesOutExactly` | internal/devicechannel/blackout.go:41-79 | a request goes out if and only if the device has an open current v2 socket, no clashing request and no probe is pending, and its reservation or the free fence allows it |
| `HandshakeExclusion.ProbeGoesOn` | internal/devicechannel/live_observation.go:58-130 | a probe starts beside no other one and no blackout request, and lasts until it ends |
| `HandshakeExclusion.HandshakesGoOn` | internal/devicechannel/tablet_assignment.go:64-198 | in each handshake step a handshake keeps plan and generation, takes at most one answer and only from its own socket; a fenced one is verified if and only if a confirming answer of a live socket is there, and done only by its own commit |
| `CommandLife.CommandGoesOn` | internal/deviceexperience/command.go:158-215 | what one step does to the row of each command: it appears as ACCEPTED by its own Dispatch, and ends with a status if and only if the step is one that ends it so |
| `CommandLife.EveryEndIsSaid` | internal/deviceexperience/command.go:158-215 | in every run each terminal status is somebody's word: the device's answer, its caller's CANCELLED or TIMED_OUT, or the FAILED of a lost frame or socket |
| `CommandLife.DispatchKeepsCallers` | internal/devicechannel/forwarder.go:150-183 | a command gets a caller that waits for it exactly when its own Dispatch returns it or a duplicate request is handed it by its key |
| `CommandPath.DispatchReachesDevice` | internal/devicechannel/runtime.go:292-349 | an undisturbed Dispatch stores its command, and writes the frame to the device's current socket, if and only if the device may be commanded, the key is new, and the socket is open and enabled for the scope; if only the socket is missing, the command ends FAILED |
| `CommandPath.ResultComesBack` | internal/devicechannel/runtime.go:739-780 | a result for a command that is bound to the socket it comes from ends it with that status if and only if the socket is heard, and unbinds it |
| `CommandPath.ForeignResultIsDropped` | internal/devicechannel/runtime.go:739-780 | a result for a command that is not bound to the socket it comes from changes nothing |
| `CommandPath.LostSocketFails` | internal/devicechannel/runtime.go:873-916 | a command that is bound to a lost socket ends FAILED unless it had ended before |
| `Reservations.RunForward` | internal/deviceexperience/transfer_intent.go:37-119 | a reservation leaves PENDING at most once and its fields never change; the audit log only grows |
| `Reservations.IntentsEndForCause` | internal/deviceexperience/transfer_intent.go:37-119 | in every run, a reservation is cancelled only by the operator and for the device it was made for, expired only after its time and by a later attempt, and committed only by its own transfer, in time |
| `Reservations.OneMovePerReservation` | internal/deviceexperience/assignment_commit.go:265-278 | after any run, a reservation has moved its device exactly once if it is COMMITTED, and never if it is pending, cancelled or expired |
| `Reservations.RetryReturnsOriginal` | internal/deviceexperience/assignment_commit.go:99-149 | committing the same verified transfer again, after any further run, returns the first record and changes no table |
| `Reservations.TransferAnswersRequest` | internal/deviceexperience/assignment_commit.go:99-149 | what a committed or replayed transfer answers with, and has in the log, is the transfer that was asked for |
| `MoveGuards.MovesInRunsAreGuarded` | internal/deviceexperience/stagelaser_assignment.go:229-371 | so every move in every run is guarded like that |
| `MoveGuards.TransferIsVerified` | internal/deviceexperience/assignment_commit.go:62-149 | a transfer is committed only with the device's own dark answer to this very challenge, and under a reservation only if that was made for the same transfer by the same operator |
| `MoveGuards.ActivationIsVerified` | internal/deviceexperience/lighting_activation.go:213-308 | an activation only with the dark answer to its challenge, the configuration that the published snapshot binds, and an epoch report of this generation |
| `MoveGuards.TabletIsVerified` | internal/deviceexperience/tablet_assignment.go:184-283 | a tablet move only with the safe answer to its challenge, from exactly the row that was asked about |
| `MoveGuards.LaserIsVerified` | internal/deviceexperience/stagelaser_assignment.go:229-330 | a StageLaser move only with an observation that is valid, tracked or confirmed, disarmed, off and without pulse or flash |
| `Repository.AllLevelsZero` | internal/devicechannel/lighting_activation.go:213-220 | true if and only if every channel level is zero |
| `Repository.ProjectsFree` | internal/deviceexperience/assignment_commit.go:191-213 | true if and only if no named Project runs a SHOW, and each exists where that is asked |
| `Repository.AssignmentRepository.CommitVerifiedBlackoutTransfer` | internal/deviceexperience/assignment_commit.go:62-288 | commits, replays or refuses exactly as the transfer transaction is specified; a refusal, even after the rows were written, leaves all tables as they were |
| `Repository.AssignmentRepository.ReserveTransferIntent` | internal/deviceexperience/transfer_intent.go:37-100 | reserves if and only if the preflight admits it; stale reservations of the device are expired in the same transaction |
| `Repository.AssignmentRepository.PreflightTransfer` | internal/deviceexperience/assignment_preflight.go:35-120 | the exact conditions of a transfer, with no change to any table |
| `Repository.AssignmentRepository.CancelTransferIntent` | internal/deviceexperience/transfer_intent.go:104-119 | only the actor's own pending reservation is cancelled |
| `Repository.AssignmentRepository.PreflightLightingActivation` | internal/deviceexperience/lighting_activation.go:142-211 | returns the bound configuration hash exactly when an activation is admissible on this generation |
| `Repository.AssignmentRepository.CommitLightingActivation` | internal/deviceexperience/lighting_activation.go:213-348 | activates at the same epoch with one audit row, or refuses without a trace |
| `Repository.AssignmentRepository.PreflightTabletAssignment` | internal/deviceexperience/tablet_assignment.go:83-179 | the exact conditions of a tablet move |
| `Repository.AssignmentRepository.CommitTabletSafeAssignment` | internal/deviceexperience/tablet_assignment.go:184-330 | moves the row one epoch on with one audit row, or refuses without a trace |
| `Repository.AssignmentRepository.PreflightStageLaserAssignment` | internal/deviceexperience/stagelaser_assignment.go:151-227 | the exact conditions of a StageLaser move |
| `Repository.AssignmentRepository.CommitStageLaserSafeAssignment` | internal/deviceexperience/stagelaser_assignment.go:229-371 | moves the row one epoch on to ACTIVE with one audit row, or refuses without a trace |
| `Repository.AssignmentRepository.MigrateLegacyLightingToV2Blocked` | internal/deviceexperience/legacy_v2_migration.go:22-161 | turns an idle LEGACY lighting node into a BLOCKED v2 one, one epoch on, or refuses without a trace |
| `Repository.AssignmentRepository.RegisterUnassignedV2` | internal/deviceexperience/v2_bootstrap.go:25-155 | a new identity starts UNASSIGNED at epoch 1; a known one is accepted exactly when its reconnect is legal, and keeps its row |
| `Repository.AssignmentRepository.UpsertDevice` | internal/deviceexperience/device.go:13-78 | a v1 hello never moves an existing assignment row and never changes the legacy Project |
| `Repository.AssignmentRepository.RecordBlockedEpochAck` | internal/deviceexperience/epoch_ack.go:29-59 | only an all-zero report is recorded, and the Project of a recorded one is never rewritten |
| `Repository.AssignmentRepository.AllocateV2ConnectionGeneration` | internal/deviceexperience/connection_generation.go:14-29 | every generation is one more than the last, up to a bound where allocation fails |
| `Repository.AssignmentRepository.DeviceAuthority` | internal/deviceexperience/command.go:32-51 | what the device record allows a command, and by which protocol the assignment is to be checked |
| `Repository.AssignmentRepository.CommandAuthority` | internal/deviceexperience/command.go:44-72 | what the assignment allows it, read later: a LEGACY row for v1, exactly the ACTIVE scope for v2 |
| `Repository.AssignmentRepository.FindByKey` | internal/deviceexperience/command.go:232-241 | finds a command of the device with this idempotency key if and only if there is one |
| `Repository.AssignmentRepository.CompleteCommand` | internal/deviceexperience/command.go:158-215 | the first terminal status of a command wins, and is taken back when its event cannot be recorded |
| `DeviceRuntime.DropBound` | internal/devicechannel/runtime.go:873-916 | takes exactly the commands bound to one socket out of the in-flight map |
| `DeviceRuntime.Runtime.Stop` | internal/devicechannel/runtime.go:174-194 | is the machine's stop, and returns every socket that was current |
| `DeviceRuntime.Runtime.Register` | internal/devicechannel/runtime.go:843-871 | is the machine's register: a fresh generation first, then the socket becomes current; the displaced one is returned, still open |
| `DeviceRuntime.Runtime.Unregister` | internal/devicechannel/runtime.go:873-916 | the device's current entry goes if and only if it is this very socket; a newer one is left alone, and all commands bound to this one are returned |
| `DeviceRuntime.Runtime.AskCommand` | internal/deviceexperience/command.go:17-43 | is the first step of a dispatch: a fresh command id, and what the device record allows |
| `DeviceRuntime.Runtime.CheckCommand` | internal/deviceexperience/command.go:44-72 | is the assignment step of a dispatch, taken after the device record was read |
| `DeviceRuntime.Runtime.FindCommand` | internal/deviceexperience/command.go:83-91 | is the lookup step: a command found by its key is handed to this caller, and nothing is inserted or bound |
| `DeviceRuntime.Runtime.StoreCommand` | internal/deviceexperience/command.go:92-156 | is the insert step: an ACCEPTED row, whatever has happened to the assignment since the check |
| `DeviceRuntime.Runtime.FailCommand` | internal/devicechannel/runtime.go:974-1000 | is the end of a command that could not be bound or written: FAILED unless it had ended before |
| `DeviceRuntime.Runtime.BindCommand` | internal/devicechannel/runtime.go:305-325 | is the bind step: refused behind a transition, on a missing socket, or on a v2 socket enabled for another scope |
| `DeviceRuntime.Runtime.SendCommand` | internal/devicechannel/runtime.go:338-347 | is the write step, outside the lock: a closed socket writes nothing, a failed write closes the socket and unbinds the command |
| `DeviceRuntime.Runtime.AllowResult` | internal/devicechannel/runtime.go:739-747 | is the first step of a device's result: a v2 socket must be current and enabled |
| `DeviceRuntime.Runtime.TakeResult` | internal/devicechannel/runtime.go:752-754 | is the second step, in a critical section of its own: the result goes on if and only if the command is bound to this socket by then |
| `DeviceRuntime.Runtime.StoreResult` | internal/devicechannel/runtime.go:777-779 | is the third step: the first terminal status is stored |
| `DeviceRuntime.Runtime.UnbindCommand` | internal/devicechannel/runtime.go:780-780 | is the last step: the command is unbound if it is still bound to this socket |
| `DeviceRuntime.Runtime.InterruptCaller` | internal/devicechannel/forwarder.go:243-283 | is the end of a command by a caller that gives up waiting, whichever Dispatch the command belongs to |
| `DeviceRuntime.Runtime.ReadScope` | internal/devicechannel/lighting_activation.go:239-287 | is the first half of a scope acknowledgment: generation, readiness, authoritative scope and a safe device; an accepted report is recorded with the socket, row and environment it was checked against |
| `DeviceRuntime.Runtime.EnableScope` | internal/devicechannel/lighting_activation.go:288-308 | is the second half, under the lock: commands are enabled only on the live socket and behind no transition |
| `DeviceRuntime.Runtime.AckBlockedEpoch` | internal/devicechannel/runtime.go:655-683 | is the epoch acknowledgment, taken only from the live socket of that generation |
| `DeviceRuntime.Runtime.RequestBlackout` | internal/devicechannel/blackout.go:41-79 | is the fence of a blackout request: one pending request per device, bound to the reserved generation, before the reservation expires |
| `DeviceRuntime.Runtime.DeliverAck` | internal/devicechannel/blackout.go:162-177 | only the socket a request was bound to can answer it, and only once |
| `DeviceRuntime.Runtime.ConfirmBlackout` | internal/devicechannel/blackout.go:118-160 | a request is confirmed exactly when its answer matches in every field, is dark, and the socket is still live |
| `DeviceRuntime.Runtime.FenceAssignment` | internal/devicechannel/tablet_assignment.go:64-89 | raises the dispatch fence and installs the request, unless another request of the device excludes it |
| `DeviceRuntime.Runtime.RecheckAssignment` | internal/devicechannel/tablet_assignment.go:100-104 | is the preflight behind the fence, for each kind of handshake |
| `DeviceRuntime.Runtime.FinishAssignment` | internal/devicechannel/tablet_assignment.go:91-98 | is the deferred cleanup: it removes only its own request and lowers the fence |
| `DeviceRuntime.Runtime.CommitTransfer` | internal/devicechannel/transfer.go:84-125 | is the transaction step of a transfer: refused unless the reserved generation is still the live socket; the lock is kept for the close |
| `DeviceRuntime.Runtime.CommitAssignment` | internal/devicechannel/lighting_activation.go:163-200 | is the transaction step of the other handshakes, behind the transition flag |
| `DeviceRuntime.Runtime.CloseCommitted` | internal/devicechannel/transfer.go:126-132 | is the close that ends the critical section of a commit |
| `DeviceRuntime.Runtime.StartProbe` | internal/devicechannel/live_observation.go:80-115 | a diagnostic probe is installed on an open current v2 socket, unless another one or a blackout request is pending |
| `LightingRebind.ReservedTransfer` | internal/devicechannel/transfer.go:31-138 | on success the row has moved one epoch on, on failure no row or audit has changed and the reservation is not left pending; whatever else changes while the device is asked |
| `LightingRebind.ActivateBlocked` | internal/devicechannel/lighting_rebind.go:148-182 | activates the BLOCKED row at its epoch or leaves it alone |
| `LightingRebind.RebindLightingSnapshot` | internal/devicechannel/lighting_rebind.go:36-182 | one call, with the rest of the tables changing in every wait, moves this device only forward, touches no other device, and success means ACTIVE(target); when the environment does all it is waited for, the call succeeds |
| `RebindRuns.RebindsAdvance` | internal/devicechannel/lighting_rebind.go:36-182 | from any reachable state, through any run of the whole Hub in which this device's only handshakes are planned by rebind calls on rows they read, the row only moves forward along ACTIVE(old), UNASSIGNED, BLOCKED, ACTIVE(target), one epoch for each transfer |
| `RebindRuns.RetriesNeverMoveBack` | internal/devicechannel/lighting_rebind.go:36-182 | so over any number of calls that fail anywhere, the row never moves back, the epoch rises by at most two, and a node at the target stays there |
| `RebindRuns.CommittedActivationIsTarget` | internal/devicechannel/lighting_rebind.go:148-182 | in such a run, once the activation of any rebind call has committed, the row is ACTIVE on the target and stays so |
| `RebindRuns.SuccessIsTarget` | internal/devicechannel/lighting_rebind.go:160-182 | a call that sees the target scope enabled on the device's live socket, and answers success, leaves the row ACTIVE on exactly that scope, and no further rebind call moves it |
| `PreflightAgreement.AdmittedMoveCommits` | internal/devicechannel/tablet_assignment.go:34-198 | from any state, a handshake with a live socket and nothing in its way moves exactly this row if and only if the preflight admits the plan and the device repeats the request and is safe; otherwise no table changes |
| `PreflightAgreement.ReservedMoveCommits` | internal/devicechannel/transfer.go:31-138 | a reserved transfer, requested, answered and later committed, moves the row if and only if its preflight admits it, the answer is as asked and all dark, and the reservation has not ended by then |
| `CuePolicy.Parse` | internal/cuegroup/policy.go:22-55 | accepts a decoded policy if and only if the cleaned ids are distinct, mode and delay are allowed; returns the cleaned policy |
| `CuePolicy.AcceptedExactly` | internal/cuegroup/policy.go:22-55 | accepted if and only if no two ids are the same but for space, the mode is blank or spells TOGETHER in capital or small letters, and the delay is at most 600000 ms; the mode is then TOGETHER unless it was blank and no cue is linked |
| `CuePolicy.ParsedIsStable` | internal/cuegroup/policy.go:22-55 | parsing is a normalization: an accepted policy, stored again, is accepted unchanged |
| `CueGraph.ResolveIffSound` | internal/cueengine/group.go:29-74 | the search of a group succeeds if and only if no walk from the root meets a missing, disabled, unparsable or repeated cue |
| `CueGraph.ResolveLists` | internal/cueengine/group.go:29-74 | a resolved group has the root first and every reachable cue exactly once |
| `CueGraph.ResolveFailsExactly` | internal/cueengine/group.go:29-74 | resolving fails if and only if the reachable part has a bad policy, a missing or disabled child, or a cycle |
| `CueOrder.ResolveInOrder` | internal/cueengine/group.go:29-74 | a resolved group lists its cues in the order in which a tour from the root, following every link list from front to back, meets them first |
| `CueForest.ValidationAgrees` | internal/cuegroup/policy.go:57-115 | author-time validation accepts a list if and only if the engine resolves every group of it and no disabled cue owns links |
| `CueShow.OneRoot` | internal/cueengine/group.go:76-98 | groups of different top-level cues share no cue |
| `CueShow.TopAncestor` | internal/cueengine/group.go:76-98 | every enabled cue of a valid list belongs to the group of an enabled top-level cue |
| `CueShow.WholeShow` | internal/cueengine/engine.go:599-650 | repeating plain GO from no current cue until NO_NEXT_CUE executes every enabled cue exactly once and no disabled one |
| `CueShow.PlainGoIsNeverRefused` | internal/cueengine/engine.go:599-650 | on a valid list a plain GO selects a cue or reports that none is left |
| `CueShow.SelectAnswers` | internal/cueengine/engine.go:599-650 | the answer to any GO is right by the list and the request: expectation first, then the requested cue, then the first cue that may follow |
| `CueShow.OneAnswer` | internal/cueengine/engine.go:599-650 | and only one answer is right |
| `CueEngine.GroupSearch.Visit` | internal/cueengine/group.go:35-69 | the recursive visit over shared state is the search of the cue graph, with state 1 marking exactly the stack |
| `CueEngine.ResolveCueGroup` | internal/cueengine/group.go:29-74 | returns exactly the group that the cue graph says |
| `CueEngine.NestedCueIDs` | internal/cueengine/group.go:76-98 | succeeds if and only if every group resolves and no cue has two owners; then lists exactly the linked cues |
| `CueEngine.CycleSearch.Visit` | internal/cuegroup/policy.go:91-108 | the visit of the validation, over one state shared by all roots |
| `CueEngine.CheckCycles` | internal/cuegroup/policy.go:90-115 | whatever order the roots are taken in, it succeeds if and only if no walk repeats a cue |
| `CueEngine.CheckLinks` | internal/cuegroup/policy.go:57-90 | the first pass accepts if and only if each cue's links are allowed and every linked cue has one owner |
| `CueEngine.Validate` | internal/cuegroup/policy.go:57-115 | accepts exactly the valid lists |
| `CueEngine.ParentMap` | internal/cuegroup/policy.go:117-129 | maps every linked cue of a valid list to its one owner, and nothing else |
| `CueEngine.SelectCue` | internal/cueengine/engine.go:599-650 | for every request: a selected cue is enabled, and is the requested one, or the first that may follow when none was requested; each refusal has exactly its own condition on the list, the session and the request |
| `ActionScheduler.ExecuteActions` | internal/cueengine/engine.go:244-336 | for every completion order: the started actions are a prefix of the enabled ones, each start comes after the finish of all that must precede it; an error-free return leaves nothing running, is COMPLETED if and only if no started action was cancelled or ended other than COMPLETED under FAIL_CUE, and an enabled action was started if and only if no such one precedes it; an error return means that some enabled action cannot be recorded or judged |
| `ActionScheduler.FatalMeans` | internal/cueengine/engine.go:496-524 | an outcome fails the cue if and only if it is CANCELLED, or other than COMPLETED under FAIL_CUE |
| `ActionScheduler.RunAction` | internal/cueengine/engine.go:244-336 | one action keeps the order of sequential and barrier actions, or ends the cue with an account of all started ones |
| `ActionScheduler.WaitPending` | internal/cueengine/engine.go:244-336 | waits for all given actions and is COMPLETED if and only if none of them was fatal |
| `ActionScheduler.ExecuteCueGroup` | internal/cueengine/group.go:111-182 | in one interleaved trace of all branches, every branch keeps its own order, a branch stopped in its delay starts nothing, and the group is COMPLETED if and only if all branches are |
| `ActionScheduler.CollectBranches` | internal/cueengine/group.go:168-182 | the one worst result of all branches, RUNNING above FAILED, TIMED_OUT, CANCELLED and COMPLETED, the same for every order they report in; one error is an error of the group |
| `ExecutionWindow.WindowIsRecent` | internal/companionchannel/runtime.go:200-220 | after any events the record map and the order list hold exactly the last 1024 admitted keys, without repeats |
| `ExecutionWindow.ReadmissionIsLate` | internal/companionchannel/runtime.go:621-631 | between two admissions of one key lie 1024 admissions of different other keys |
| `ExecutionWindow.BusyExactly` | internal/companionchannel/runtime.go:200-220 | a request is refused as busy if and only if its key is unknown and the full window is blocked by an unfinished oldest record |
| `ExecutionWindow.RecordsAreKept` | internal/companionchannel/runtime.go:564-578 | in any run an unfinished record is never evicted, and a result is written once |
| `ExecutionWindow.ResultsHaveASource` | internal/companionchannel/runtime.go:544-578 | a record is finished only by a wire result that was looked up under its key, by its own execution, or by the close of the socket that collected it |
| `ExecutionWindow.WireResultsCount` | internal/companionchannel/runtime.go:544-562 | in every run, a wire result that finishes a record finishes one of its own socket if and only if the last admission of the key since its lookup, if there was one, captured that socket |
| `LateWireResult.LateResultEndsAnotherRecord` | internal/companionchannel/runtime.go:555-578 | a concrete run after which the late result of one socket finishes the unfinished record of another |
| `ExecutionWindow.ClosedSocketsComplete` | internal/companionchannel/runtime.go:602-619 | once a socket's close has worked off its list, every record bound to it is complete |
| `ExecutionWindow.KeyIsInjective` | internal/companionchannel/runtime.go:654-656 | without NUL in Companion ids, different executions have different keys |
| `ExecutionWindow.KeysCollideExactly` | internal/companionchannel/runtime.go:192-199 | two Companions can share a key for executions that are not blank if and only if one id is the other followed by NUL and any text |
| `ExecutionWindow.KeyWithNulIsAmbiguous` | internal/companionchannel/runtime.go:192-199 | two requests that are accepted, for different Companions, with one key |
| `CompanionPath.ConnectionStays` | internal/companionchannel/runtime.go:602-619 | a Companion keeps its connection until that one closes or another one says hello |
| `CompanionPath.HelloConnects` | internal/companionchannel/runtime.go:372-383 | a hello on a new socket makes it the Companion's connection and touches no execution |
| `CompanionPath.AdmissionExactly` | internal/companionchannel/runtime.go:192-220 | in every run, a request is refused if an id is blank, known if it is remembered, busy if the window is blocked, and otherwise admitted on the Companion's current connection |
| `CompanionPath.ResultComesBack` | internal/companionchannel/runtime.go:544-578 | in every run, an execution whose result comes back on its own socket ends with that result |
| `CompanionPath.CloseFails` | internal/companionchannel/runtime.go:602-619 | a closing socket fails exactly its unfinished records, each with the failure it is given, and closes only once |
| `CompanionChannel.RuntimeChannel.AcceptHello` | internal/companionchannel/runtime.go:372-383 | is the hello event; the displaced socket is returned |
| `CompanionChannel.RuntimeChannel.PruneExecutionsLocked` | internal/companionchannel/runtime.go:621-631 | forgets the oldest finished records until there is room, and stops at an unfinished one |
| `CompanionChannel.RuntimeChannel.Admit` | internal/companionchannel/runtime.go:192-220 | is the execute event: known, busy, or admitted with the Companion's current socket captured, and then stored as unfinished |
| `CompanionChannel.RuntimeChannel.Finish` | internal/companionchannel/runtime.go:564-578 | keeps and returns the first result |
| `CompanionChannel.RuntimeChannel.LookUp` | internal/companionchannel/runtime.go:554-560 | is the lookup of a wire result: it goes on only for a record bound to this very socket |
| `CompanionChannel.RuntimeChannel.FinishFound` | internal/companionchannel/runtime.go:561-578 | is the finish that follows in a later critical section, of whatever record has that key by then |
| `CompanionChannel.RuntimeChannel.RemoveConnection` | internal/companionchannel/runtime.go:602-615 | is the close event: the Companion's connection goes if it is this socket, and exactly the unfinished records of the socket are collected |
| `CompanionChannel.RuntimeChannel.FailOne` | internal/companionchannel/runtime.go:616-619 | is the interrupt event of one collected record |
| `CompanionChannel.RuntimeChannel.FailPending` | internal/companionchannel/runtime.go:602-619 | the whole close: every record that was collected has a result afterwards, and results that came first are kept |
| `FirmwareLifecycle.UpdatesFollowThePath` | internal/deviceupdate/lifecycle.go:153-277 | after any events with any stale reads, an update made at most seven changes, and a COMPLETED one passed every state in order on one generation and was confirmed on a strictly larger one |
| `FirmwareLifecycle.CompletedByReport` | internal/deviceupdate/lifecycle.go:345-418 | after any events, a COMPLETED update was confirmed by a device that reported the profile and the target version of its manifest on the generation the row names, and the target differs from the version before |
| `FirmwareLifecycle.EndsAndGenerationsAreFinal` | internal/deviceupdate/lifecycle.go:439-481 | between any two moments, terminal rows stay as they are and a bound generation never changes |
| `UpdateCompletion.LostConnectionCuts` | internal/deviceupdate/lifecycle.go:315-343 | a lost connection interrupts exactly the updates that were SENT, ACCEPTED, DOWNLOADING, WRITING or VERIFYING on it; a REBOOTING one is spared |
| `UpdateCompletion.RestartCuts` | internal/deviceupdate/lifecycle.go:420-437 | a restart of the Hub does the same to the updates of every connection |
| `UpdateCompletion.ReportExactly` | internal/deviceupdate/lifecycle.go:212-277 | a report is stored if and only if it comes from the device on the bound generation and is one of eleven moves; one that comes too late to a SENT update expires it |
| `UpdateCompletion.IssueExactly` | internal/deviceupdate/lifecycle.go:65-109 | an update is issued if and only if its id is new, its manifest passed its checks, it changes the version and has not expired |
| `UpdateCompletion.EveryStateIsBrought` | internal/deviceupdate/lifecycle.go:153-437 | in every run, each state of each update was brought by an event of its own kind, from the state before it |
| `UpdateCompletion.RolloutCompletes` | internal/deviceupdate/lifecycle.go:65-437 | from any state: issued, sent in time, reported in order, the socket lost or the Hub restarted, confirmed on a larger generation, with anything else in between that concerns other updates, the update is COMPLETED |
| `UpdateStore.LifecycleStore.Issue` | internal/deviceupdate/lifecycle.go:65-109 | stores a new update if and only if its manifest is valid, names a new version, has not expired, and the id is unused |
| `UpdateStore.LifecycleStore.MarkSent` | internal/deviceupdate/lifecycle.go:153-210 | binds the generation, or expires the manifest; answers success exactly when it was sent now |
| `UpdateStore.LifecycleStore.RecordDeviceState` | internal/deviceupdate/lifecycle.go:212-277 | goes through only if the row still is what the decision was made on |
| `UpdateStore.LifecycleStore.MarkTransportFailed` | internal/deviceupdate/lifecycle.go:279-313 | fails an update if and only if it is still SENT on this generation and was read so |
| `UpdateStore.LifecycleStore.InterruptConnection` | internal/deviceupdate/lifecycle.go:315-343 | interrupts what is in transfer on this device and generation, and leaves every REBOOTING row as it is |
| `UpdateStore.LifecycleStore.ReconcileInterrupted` | internal/deviceupdate/lifecycle.go:420-437 | the same for all devices after a restart |
| `UpdateStore.LifecycleStore.FindRebooting` | internal/deviceupdate/lifecycle.go:355-369 | finds the device's rebooting update that was changed last, the largest id among equals, if there is any |
| `UpdateStore.LifecycleStore.ConfirmPostReboot` | internal/deviceupdate/lifecycle.go:345-418 | is the confirmation of the update that was found: completed or failed on a larger generation, and only if the row is unchanged |
| `ObservationGate.MatchExactly` | internal/deviceexperience/live_lighting_reconcile.go:62-121 | MATCH if and only if every desired channel was reported with the desired level in an admissible report |
| `ObservationGate.DriftExactly` | internal/deviceexperience/live_lighting_reconcile.go:62-121 | DRIFT if and only if an admissible report is complete and some channel differs, UNKNOWN if and only if it is not complete |
| `ObservationGate.RefusedExactly` | internal/deviceexperience/live_lighting_reconcile.go:62-121 | a report is refused if and only if it is not granted, names another Project, session, snapshot, epoch, generation or challenge, or the desired channels do not exist |
| `ObservationGate.CompareLiveLighting` | internal/deviceexperience/live_lighting_reconcile.go:62-121 | the status, and exactly the missing and the differing channels in ascending order |
| `ObservationGate.Sift` | internal/deviceexperience/live_lighting_reconcile.go:96-105 | splits off missing and differing channels in whatever order the map is walked |
| `ObservationGate.Sort` | internal/deviceexperience/live_lighting_reconcile.go:106-107 | the same channels in ascending order |
| `ObservationGate.PendingHasOrigin` | internal/deviceexperience/live_lighting_observation_gate.go:44-70 | what is pending stems from the latest Begin of the device, with nothing that used its challenge since |
| `ObservationGate.AnswersAreFresh` | internal/deviceexperience/live_lighting_observation_gate.go:88-121 | over any history, an answer other than a refusal is given only to the device's latest uncancelled Begin, before its deadline and in its scope |
| `ObservationGate.AnsweredOnce` | internal/deviceexperience/live_lighting_observation_gate.go:88-121 | and at most once per challenge |
| `ObservationGate.FreshIsAnswered` | internal/deviceexperience/live_lighting_observation_gate.go:44-121 | a report that comes in time, in the scope and with the challenge of an unused Begin, gets the status that the comparison gives it |
| `ObservationGate.LiveLightingObservationGate.BeginObservation` | internal/deviceexperience/live_lighting_observation_gate.go:44-70 | stores scope, challenge and deadline for a whole scope and a time of at most 30 seconds, in place of an earlier challenge of the device |
| `ObservationGate.LiveLightingObservationGate.CancelObservation` | internal/deviceexperience/live_lighting_observation_gate.go:72-86 | is the Cancel event: only the exact challenge is withdrawn |
| `ObservationGate.LiveLightingObservationGate.CompleteObservation` | internal/deviceexperience/live_lighting_observation_gate.go:88-121 | is the Complete event; a matching challenge is used up whatever is answered |
| `JsonText.StringBack` | internal/canonicaljson/canonicaljson.go:42-91 | a quoted and escaped string is read back, with the text after it untouched |
| `JsonText.NumberThen` | internal/canonicaljson/canonicaljson.go:42-91 | a written number is read in full and no further |
| `JsonReader.ReadValueSound` | internal/canonicaljson/canonicaljson.go:21-40 | what the reader returns is well formed and within the nesting bound |
| `JsonSpelling.PartsAreNumber` | internal/canonicaljson/canonicaljson.go:21-40 | whatever follows the number grammar of RFC 8259 is read as a number |
| `JsonSpelling.NumberHasParts` | internal/canonicaljson/canonicaljson.go:21-40 | and whatever is read as one follows it |
| `JsonSpelling.StringReads` | internal/canonicaljson/canonicaljson.go:21-40 | a string spelled with any mix of plain characters, short escapes, four-digit escapes and surrogate pairs is read as what it means |
| `JsonSpelling.StringMeans` | internal/canonicaljson/canonicaljson.go:21-40 | and whatever is read as a string is spelled so |
| `JsonGrammar.ParsesExactly` | internal/canonicaljson/canonicaljson.go:21-40 | the reader accepts a text with a value if and only if the text is a document of the grammar that means it, nests at most 10000 levels, and has nothing but space around it; of two members with one key the later one counts |
| `JsonGrammar.OneMeaning` | internal/canonicaljson/canonicaljson.go:21-40 | so no text means two values |
| `CanonicalJson.RoundTrip` | internal/canonicaljson/canonicaljson.go:42-91 | parsing what was written, in whatever key order, gives the value back if it nests at most 10000 levels, and is refused otherwise |
| `CanonicalJson.CanonicalIsInjective` | internal/canonicaljson/canonicaljson.go:42-91 | different values have different canonical texts, however deep |
| `CanonicalJson.KeyOrderIsForgotten` | internal/canonicaljson/canonicaljson.go:21-91 | inputs that differ only in key order, chosen for each object of the document by itself, normalize to the same bytes |
| `CanonicalJson.SameBytesSameValue` | internal/canonicaljson/canonicaljson.go:21-91 | two texts normalize to the same bytes if and only if they mean the same value |
| `CanonicalJson.NormalizeIsIdempotent` | internal/canonicaljson/canonicaljson.go:21-40 | normalizing twice is normalizing once, and keeps the value |
| `CanonicalJson.AscendingIsUnique` | internal/canonicaljson/canonicaljson.go:69-73 | a set of keys has only one ascending order |
| `CanonicalForm.EscapesExactly` | internal/canonicaljson/canonicaljson.go:42-55 | exactly quotes, backslashes, control characters, angle brackets, ampersands and the two line separators are escaped, with two characters or with four lower-case digits |
| `CanonicalForm.QuotedIsSafe` | internal/canonicaljson/canonicaljson.go:42-55 | so a canonical string holds no control character, line separator or sign of markup |
| `CanonicalForm.DocumentText` | internal/canonicaljson/canonicaljson.go:42-91 | the canonical text of one document, in full |
| `JsonWriter.WriteValue` | internal/canonicaljson/canonicaljson.go:42-91 | appends exactly the canonical text to the shared buffer |
| `JsonWriter.SortKeys` | internal/canonicaljson/canonicaljson.go:69-73 | the keys in ascending order, in whatever order the map is walked |
| `JsonWriter.NormalizeText` | internal/canonicaljson/canonicaljson.go:21-40 | decodes and rewrites as specified, or refuses |
| `Environment.ParseEnvironment` | internal/deployment/install.go:528-554 | refuses the file if and only if some line is invalid or beyond the scanner's buffer; else each key has the value that the last line which sets it gives it, and no other key is set |
| `EnvironmentLines.LineExactly` | internal/deployment/install.go:528-554 | a line is skipped if and only if it is space or a comment; it sets a key to a value if and only if it is the key, an equals sign and the value, plain or in one pair of matching quotes, with space around any of them; every other line is invalid |
| `EnvironmentLines.FitsExactly` | internal/deployment/install.go:528-554 | a line fits the scanner if and only if its UTF-8 form has less than 65536 bytes |
| `Environment.ReplaceEnvironmentValue` | internal/deployment/install.go:504-526 | succeeds if and only if some line sets the key, and rewrites exactly those lines |
| `Environment.EditChangesOneSetting` | internal/deployment/install.go:504-554 | after an edit with a one-line value all other lines are unchanged, and parsing gives the old settings with this key set to the value as it is read, provided the new line and all kept ones fit the scanner's buffer |
| `Environment.EditStoresExactly` | internal/deployment/install.go:504-554 | parsing the edited file gives exactly the old settings with the given value if and only if the value is one line, trimmed and unquoted, and its line fits the scanner's buffer |
| `Environment.QuotedValueIsNotStored` | internal/deployment/install.go:540-549 | a concrete edit that succeeds, after which the file reads as another value |
| `EnvironmentRendering.QuotedSettingIsNotStored` | internal/deployment/install.go:528-567 | the same for a rendered file |
| `EnvironmentRendering.RenderReadsBack` | internal/deployment/install.go:528-567 | parsing a rendered file gives back the rendered settings if and only if each of them is one line, trimmed and unquoted, and its line fits the scanner's buffer |

## Left out

- I/O: WebSocket, HTTP, TLS, mDNS, UDP, files and command wiring; messages are taken as already decoded records.
- ECDSA pairing, session validation, authorize callbacks and operator permissions: a step that needs them is one that may be taken or not.
- Ids are opaque tokens: their trimming, length limits and hexadecimal format are not modelled.
- `DeviceRuntime.Runtime`: a connection is a row of the socket map, keyed by its id, so the aliasing of connection objects is not captured; goroutine locals are ghost maps.
- `DeviceRuntime.Runtime.FindCommand`: deadlines, capability lists and payload checks of command creation are not modelled; they only refuse more.
- `Repository.AssignmentRepository.UpsertDevice`: display metadata, timestamps, runtime state and the event log are not modelled.
- The preflight that runs before a handshake's fence only refuses earlier; the machine does not require it, and it allows more interleavings than the transfer mutex does.
- Recording of observations, blackout monitoring and maintenance messages on the same socket; of the diagnostic lighting probe only that it excludes handshakes.
- `LightingRebind.RebindLightingSnapshot`: polling loops and time limits are answers of the environment, and no other operator works on the device while a call runs.
- `ActionScheduler.ExecuteActions`: an error return happens only when some enabled action cannot be recorded or judged; beyond that it says only what was started and in which order, because such a return leaves running actions unawaited. Timeouts are results of an action.
- `ActionScheduler.ExecuteCueGroup`: the interleaving is of the branches' own traces, as their actions share nothing that the properties mention; start delays are only passed or stopped.
- The session state that a GO stores, its command record and its emitted events; what a cue's actions do.
- `CompanionChannel.RuntimeChannel`: sending, waiting and the decoding of results are not modelled; the receive loop of a socket handles one result at a time.
- `UpdateStore.LifecycleStore.Issue`: the checks of the manifest that concern neither its versions nor its expiry (format, artifact, rollback, signature) are one verdict, a parameter.
- `UpdateStore.LifecycleStore.ConfirmPostReboot`: error texts are not modelled.
- JSON and environment files: text is a sequence of characters, so UTF-8 decoding and invalid UTF-8 are not modelled; nor is the marshalling of Go values.
- `EnvironmentRendering.RenderReadsBack`: path joining in rendering is a parameter.
- Legacy v1 dispatch, display state, live sources, network cockpit, decommissioning, inspection windows, camera relay, bulk changes, backup and diagnostics: plumbing, small checks, or the same patterns again.
