/** What each transaction of the assignment repository does to the tables: `None` when it refuses
    and rolls back, the new tables and the returned record when it commits. */
module AssignmentCommits {
  import opened StageTypes

  // ---------------------------------------------------------------- shared reads

  predicate AllZero(levels: seq<int>) {
    forall i | 0 <= i < |levels| :: levels[i] == 0
  }

  predicate HasPendingCommand(commands: map<Id, Command>, device: Id) {
    exists c | c in commands :: commands[c].device == device && commands[c].status == Accepted
  }

  predicate Locked(env: Env, project: Id) {
    project != NO_ID && project in env.shows
  }

  predicate ScopePair(project: Id, snapshot: Id) {
    (project == NO_ID) == (snapshot == NO_ID)
  }

  predicate PublishedFor(env: Env, project: Id, snapshot: Id) {
    snapshot in env.snapshots && env.snapshots[snapshot].project == project && env.snapshots[snapshot].published
  }

  /** The configuration hash a published snapshot binds to a lighting node. */
  function LightingConfig(env: Env, device: Id, project: Id, snapshot: Id): Option<Id> {
    if PublishedFor(env, project, snapshot) && device in env.snapshots[snapshot].lighting
    then Some(env.snapshots[snapshot].lighting[device])
    else None
  }

  /** How many activation rows record exactly this scope. */
  function Activations(log: seq<Audit>, device: Id, project: Id, snapshot: Id, epoch: int): nat {
    if log == [] then 0
    else
      var last := log[|log| - 1];
      Activations(log[..|log| - 1], device, project, snapshot, epoch) +
      (if last.ActivationAudit? && last.device == device && last.project == project &&
          last.snapshot == snapshot && last.epoch == epoch then 1 else 0)
  }

  function LaserAudits(log: seq<Audit>, device: Id, project: Id, snapshot: Id, epoch: int): nat {
    if log == [] then 0
    else
      var last := log[|log| - 1];
      LaserAudits(log[..|log| - 1], device, project, snapshot, epoch) +
      (if last.LaserAudit? && last.device == device && last.project == project &&
          last.snapshot == snapshot && last.toEpoch == epoch then 1 else 0)
  }

  /** The first transfer row of a device with this idempotency key. */
  function FindTransfer(log: seq<Audit>, device: Id, key: Id): Option<Audit> {
    if log == [] then None
    else if log[0].TransferAudit? && log[0].device == device && log[0].key == key then Some(log[0])
    else FindTransfer(log[1..], device, key)
  }

  predicate StateShape(a: Assignment) {
    match a.state
    case Unassigned => a.project == NO_ID && a.snapshot == NO_ID
    case Blocked => a.project != NO_ID && a.snapshot == NO_ID
    case Active => a.project != NO_ID && a.snapshot != NO_ID
    case Legacy => false
  }

  // ---------------------------------------------------------------- blackout transfer

  datatype VerifiedTransfer = VerifiedTransfer(
    reservation: Id, device: Id, fromProject: Id, toProject: Id, epoch: int, generation: int, challenge: Id,
    ackDevice: Id, ackEpoch: int, ackGeneration: int, ackChallenge: Id, ackBlackout: bool, ackLevels: seq<int>,
    actor: Id, key: Id)

  datatype TransferRecord = TransferRecord(id: Id, device: Id, fromProject: Id, toProject: Id,
                                           fromEpoch: int, toEpoch: int, next: AssignmentState, reused: bool)

  datatype TransferOutcome = TransferOutcome(tables: Tables, record: TransferRecord)

  predicate WellFormedTransfer(v: VerifiedTransfer) {
    && v.device != NO_ID && v.actor != NO_ID && v.key != NO_ID && v.fromProject != v.toProject
    && 0 < v.epoch < MAX_INT64 && 0 < v.generation
    && v.ackDevice == v.device && v.ackEpoch == v.epoch && v.ackGeneration == v.generation
    && v.ackBlackout && v.ackChallenge == v.challenge && v.challenge != NO_ID
    && |v.ackLevels| == MAX_CHANNELS && AllZero(v.ackLevels)
  }

  predicate ReservationMatches(t: Tables, v: VerifiedTransfer) {
    v.reservation != NO_ID ==>
      && v.reservation in t.intents
      && var i := t.intents[v.reservation];
      && i.device == v.device && i.fromProject == v.fromProject && i.toProject == v.toProject
      && i.epoch == v.epoch && i.generation == v.generation && i.channels == MAX_CHANNELS
      && i.digest == Sha256(v.challenge) && i.actor == v.actor
      && ((i.status == Pending && t.env.now < i.expires) || i.status == Committed)
  }

  predicate SameTransfer(row: Audit, v: VerifiedTransfer) {
    && row.TransferAudit?
    && row.fromProject == v.fromProject && row.toProject == v.toProject
    && row.fromEpoch == v.epoch && row.toEpoch == v.epoch + 1 && row.actor == v.actor
    && row.generation == v.generation && row.digest == Sha256(v.challenge)
    && (v.reservation != NO_ID ==> row.id == v.reservation)
  }

  function RecordOf(row: Audit, reused: bool): TransferRecord
    requires row.TransferAudit?
  {
    TransferRecord(row.id, row.device, row.fromProject, row.toProject, row.fromEpoch, row.toEpoch, row.next, reused)
  }

  predicate ProjectFree(env: Env, project: Id) {
    project != NO_ID ==> project in env.projects && project !in env.shows
  }

  predicate LightingAudited(log: seq<Audit>, device: Id, a: Assignment) {
    a.state == Active ==> Activations(log, device, a.project, a.snapshot, a.epoch) == 1
  }

  /** Every refusal of a first (not replayed) transfer except the audit count. */
  predicate TransferEligible(t: Tables, v: VerifiedTransfer) {
    && v.device in t.assignments && v.device in t.devices
    && var a := t.assignments[v.device];
    && var d := t.devices[v.device];
    && a.project == v.fromProject && a.epoch == v.epoch && StateShape(a)
    && d.protocol == V2 && d.profile == LightingNode && d.project == NO_ID && d.enabled
    && ProjectFree(t.env, v.fromProject) && ProjectFree(t.env, v.toProject)
    && !HasPendingCommand(t.commands, v.device)
  }

  function NextTransferState(toProject: Id): AssignmentState {
    if toProject == NO_ID then Unassigned else Blocked
  }

  function TransferRow(v: VerifiedTransfer, id: Id): Audit {
    TransferAudit(id, v.device, v.key, v.actor, v.fromProject, v.toProject, v.epoch, v.epoch + 1,
                  v.generation, Sha256(v.challenge), NextTransferState(v.toProject))
  }

  /** `generated` is the id generated when no reservation is given. */
  function CommitTransfer(t: Tables, v: VerifiedTransfer, generated: Id): Option<TransferOutcome> {
    if !WellFormedTransfer(v) || !ReservationMatches(t, v) then None
    else
      match FindTransfer(t.log, v.device, v.key)
      case Some(first) =>
        if SameTransfer(first, v) then Some(TransferOutcome(t, RecordOf(first, true))) else None
      case None =>
        if !TransferEligible(t, v) || !LightingAudited(t.log, v.device, t.assignments[v.device]) then None
        else if v.reservation != NO_ID && t.intents[v.reservation].status != Pending then None
        else
          var id := if v.reservation == NO_ID then generated else v.reservation;
          var row := TransferRow(v, id);
          Some(TransferOutcome(
            t.(assignments := t.assignments[v.device := Assignment(row.next, v.toProject, NO_ID, v.epoch + 1)],
               log := t.log + [row],
               intents := if v.reservation == NO_ID then t.intents
                          else t.intents[v.reservation := t.intents[v.reservation].(status := Committed)]),
            RecordOf(row, false)))
  }

  // ---------------------------------------------------------------- transfer intents

  datatype TransferRequest = TransferRequest(device: Id, fromProject: Id, toProject: Id, epoch: int)

  /** The read-only preflight of a transfer. */
  predicate TransferPreflight(t: Tables, r: TransferRequest) {
    && r.device != NO_ID && 1 <= r.epoch && r.fromProject != r.toProject
    && r.device in t.devices && r.device in t.assignments
    && var a := t.assignments[r.device];
    && var d := t.devices[r.device];
    && d.protocol == V2 && d.enabled && d.profile == LightingNode && d.project == NO_ID
    && a.project == r.fromProject && a.epoch == r.epoch && StateShape(a)
    && LightingAudited(t.log, r.device, a)
    && ProjectFree(t.env, r.fromProject) && ProjectFree(t.env, r.toProject)
    && !HasPendingCommand(t.commands, r.device)
  }

  function ExpireStale(intents: map<Id, Intent>, device: Id, now: int): map<Id, Intent> {
    map i | i in intents ::
      if intents[i].device == device && intents[i].status == Pending && intents[i].expires <= now
      then intents[i].(status := Expired) else intents[i]
  }

  /** The write transaction of a reservation: release stale attempts, insert the new one. */
  function ReserveIntent(t: Tables, r: TransferRequest, id: Id, generation: int, channels: int, actor: Id,
                         challenge: Id): Tables
  {
    var now := t.env.now;
    t.(intents := ExpireStale(t.intents, r.device, now)[id :=
         Intent(r.device, r.fromProject, r.toProject, r.epoch, generation, channels, Sha256(challenge), Pending,
                actor, now + RESERVATION_TTL_US)])
  }

  function CancelIntent(t: Tables, id: Id, device: Id, actor: Id): Tables {
    if id in t.intents && t.intents[id].device == device && t.intents[id].actor == actor &&
       t.intents[id].status == Pending
    then t.(intents := t.intents[id := t.intents[id].(status := Cancelled)])
    else t
  }

  // ---------------------------------------------------------------- lighting activation

  datatype VerifiedActivation = VerifiedActivation(
    id: Id, device: Id, project: Id, snapshot: Id, epoch: int, generation: int, challenge: Id, config: Id,
    ackDevice: Id, ackProject: Id, ackSnapshot: Id, ackEpoch: int, ackGeneration: int, ackChallenge: Id,
    ackConfig: Id, ackBlackout: bool, ackLevels: seq<int>, actor: Id)

  predicate WellFormedActivation(v: VerifiedActivation) {
    && v.id != NO_ID && v.device != NO_ID && v.project != NO_ID && v.snapshot != NO_ID && v.actor != NO_ID
    && 1 < v.epoch && 0 < v.generation && v.config != NO_ID && v.challenge != NO_ID
    && v.ackDevice == v.device && v.ackProject == v.project && v.ackSnapshot == v.snapshot
    && v.ackEpoch == v.epoch && v.ackGeneration == v.generation && v.ackChallenge == v.challenge
    && v.ackConfig == v.config && v.ackBlackout
    && |v.ackLevels| == MAX_CHANNELS && AllZero(v.ackLevels)
  }

  predicate LightingReady(t: Tables, device: Id) {
    && device in t.devices
    && var d := t.devices[device];
    && d.enabled && d.protocol == V2 && d.profile == LightingNode && d.project == NO_ID
  }

  predicate BlockedAt(t: Tables, device: Id, project: Id, epoch: int) {
    && device in t.assignments
    && t.assignments[device] == Assignment(Blocked, project, NO_ID, epoch)
  }

  /** The read-only preflight; its plan is the configuration hash. */
  function ActivationPreflight(t: Tables, device: Id, project: Id, snapshot: Id, epoch: int, generation: int)
    : Option<Id>
  {
    var key := EpochKey(device, epoch);
    if device == NO_ID || project == NO_ID || snapshot == NO_ID || epoch <= 1 || generation <= 0 then None
    else if !LightingReady(t, device) || !BlockedAt(t, device, project, epoch) then None
    else if key !in t.acks || t.acks[key] != EpochAck(project, generation, MAX_CHANNELS) then None
    else if project in t.env.shows || HasPendingCommand(t.commands, device) then None
    else LightingConfig(t.env, device, project, snapshot)
  }

  predicate ActivationEligible(t: Tables, v: VerifiedActivation) {
    && LightingReady(t, v.device) && BlockedAt(t, v.device, v.project, v.epoch)
    && EpochKey(v.device, v.epoch) in t.acks && t.acks[EpochKey(v.device, v.epoch)].generation == v.generation
    && LightingConfig(t.env, v.device, v.project, v.snapshot) == Some(v.config)
    && v.project !in t.env.shows
    && !HasPendingCommand(t.commands, v.device)
  }

  function ActivationRow(v: VerifiedActivation): Audit {
    ActivationAudit(v.id, v.device, v.actor, v.project, v.snapshot, v.epoch, v.generation,
                    Sha256(v.challenge), v.config)
  }

  function CommitActivation(t: Tables, v: VerifiedActivation): Option<Tables> {
    if WellFormedActivation(v) && ActivationEligible(t, v)
    then Some(t.(assignments := t.assignments[v.device := Assignment(Active, v.project, v.snapshot, v.epoch)],
                 log := t.log + [ActivationRow(v)]))
    else None
  }

  // ---------------------------------------------------------------- tablet assignment

  datatype VerifiedTablet = VerifiedTablet(
    id: Id, device: Id, fromProject: Id, fromSnapshot: Id, toProject: Id, toSnapshot: Id, epoch: int,
    generation: int, challenge: Id, ackDevice: Id, ackEpoch: int, ackGeneration: int, ackChallenge: Id,
    ackSafe: bool, actor: Id)

  predicate WellFormedTablet(v: VerifiedTablet) {
    && v.id != NO_ID && v.device != NO_ID && v.actor != NO_ID
    && 0 < v.epoch < MAX_INT64 && 0 < v.generation && v.challenge != NO_ID
    && ScopePair(v.fromProject, v.fromSnapshot) && ScopePair(v.toProject, v.toSnapshot)
    && v.ackDevice == v.device && v.ackEpoch == v.epoch && v.ackGeneration == v.generation
    && v.ackSafe && v.ackChallenge == v.challenge
  }

  predicate TabletReady(t: Tables, device: Id) {
    && device in t.devices
    && var d := t.devices[device];
    && d.enabled && d.protocol == V2 && d.profile == TabletProfile && d.kind == TabletPlayer && d.project == NO_ID
  }

  /** The source row a tablet commit expects; the state itself may be UNASSIGNED or ACTIVE. */
  predicate TabletSource(a: Assignment, project: Id, snapshot: Id, epoch: int) {
    a.project == project && a.snapshot == snapshot && a.epoch == epoch && (a.state == Unassigned || a.state == Active)
  }

  predicate TabletEligible(t: Tables, v: VerifiedTablet) {
    && TabletReady(t, v.device) && v.device in t.assignments
    && TabletSource(t.assignments[v.device], v.fromProject, v.fromSnapshot, v.epoch)
    && (v.toProject != NO_ID ==> PublishedFor(t.env, v.toProject, v.toSnapshot))
    && !Locked(t.env, v.fromProject) && !Locked(t.env, v.toProject)
    && !HasPendingCommand(t.commands, v.device)
  }

  function NextTabletState(toProject: Id): AssignmentState {
    if toProject == NO_ID then Unassigned else Active
  }

  function TabletRow(v: VerifiedTablet): Audit {
    TabletAudit(v.id, v.device, v.actor, v.fromProject, v.toProject, v.fromSnapshot, v.toSnapshot,
                v.epoch, v.epoch + 1, v.generation, Sha256(v.challenge), NextTabletState(v.toProject))
  }

  function CommitTablet(t: Tables, v: VerifiedTablet): Option<Tables> {
    if WellFormedTablet(v) && TabletEligible(t, v)
    then Some(t.(assignments := t.assignments[v.device :=
                   Assignment(NextTabletState(v.toProject), v.toProject, v.toSnapshot, v.epoch + 1)],
                 log := t.log + [TabletRow(v)]))
    else None
  }

  /** The read-only tablet preflight. */
  predicate TabletPreflight(t: Tables, device: Id, fromProject: Id, fromSnapshot: Id, toProject: Id, toSnapshot: Id,
                            epoch: int)
  {
    && device != NO_ID && 0 < epoch < MAX_INT64
    && ScopePair(fromProject, fromSnapshot) && ScopePair(toProject, toSnapshot)
    && !(fromProject == toProject && fromSnapshot == toSnapshot)
    && TabletReady(t, device) && device in t.assignments
    && TabletSource(t.assignments[device], fromProject, fromSnapshot, epoch)
    && StateShape(t.assignments[device])
    && (toProject != NO_ID ==> PublishedFor(t.env, toProject, toSnapshot))
    && !Locked(t.env, fromProject) && !Locked(t.env, toProject)
    && !HasPendingCommand(t.commands, device)
  }

  // ---------------------------------------------------------------- StageLaser assignment

  datatype VerifiedLaser = VerifiedLaser(
    id: Id, device: Id, fromProject: Id, fromSnapshot: Id, toProject: Id, toSnapshot: Id, epoch: int,
    generation: int, challenge: Id, ackDevice: Id, ackEpoch: int, ackGeneration: int, ackChallenge: Id,
    observation: LaserObservation, actor: Id)

  predicate LaserSafe(o: LaserObservation) {
    && o.valid && o.contractMatches && o.disarmed && o.off
    && (o.quality == Tracked || o.quality == Confirmed)
    && !o.resync && !o.pulse && !o.flash
  }

  predicate LaserScope(device: Id, fromProject: Id, fromSnapshot: Id, toProject: Id, toSnapshot: Id, epoch: int) {
    && device != NO_ID && toProject != NO_ID && toSnapshot != NO_ID && 0 < epoch < MAX_INT64
    && ScopePair(fromProject, fromSnapshot)
    && (fromProject != NO_ID ==> fromProject == toProject)
    && (fromSnapshot != NO_ID ==> fromSnapshot != toSnapshot)
  }

  predicate WellFormedLaser(v: VerifiedLaser) {
    && LaserScope(v.device, v.fromProject, v.fromSnapshot, v.toProject, v.toSnapshot, v.epoch)
    && v.id != NO_ID && v.actor != NO_ID && 0 < v.generation && v.challenge != NO_ID
    && v.ackDevice == v.device && v.ackEpoch == v.epoch && v.ackGeneration == v.generation
    && v.ackChallenge == v.challenge
    && LaserSafe(v.observation)
  }

  predicate LaserReady(t: Tables, device: Id) {
    && device in t.devices
    && var d := t.devices[device];
    && d.enabled && d.protocol == V2 && d.profile == StageLaserProfile && d.kind == Generic && d.project == NO_ID
  }

  predicate LaserSource(a: Assignment, fromProject: Id, fromSnapshot: Id, toProject: Id, epoch: int) {
    && a.epoch == epoch
    && match a.state
       case Unassigned => fromProject == NO_ID && fromSnapshot == NO_ID && a.project == NO_ID && a.snapshot == NO_ID
       case Active => fromProject != NO_ID && fromSnapshot != NO_ID && a.project == fromProject &&
                      a.snapshot == fromSnapshot && toProject == a.project
       case _ => false
  }

  predicate LaserTarget(env: Env, device: Id, project: Id, snapshot: Id) {
    PublishedFor(env, project, snapshot) && device in env.snapshots[snapshot].lasers
  }

  predicate LaserEligible(t: Tables, v: VerifiedLaser) {
    && LaserReady(t, v.device) && v.device in t.assignments
    && LaserSource(t.assignments[v.device], v.fromProject, v.fromSnapshot, v.toProject, v.epoch)
    && LaserTarget(t.env, v.device, v.toProject, v.toSnapshot)
    && v.toProject !in t.env.shows
    && !HasPendingCommand(t.commands, v.device)
  }

  function LaserRow(v: VerifiedLaser): Audit {
    LaserAudit(v.id, v.device, v.actor, v.toProject, v.toSnapshot, v.epoch, v.epoch + 1, v.generation,
               Sha256(v.challenge), v.observation.quality)
  }

  function CommitLaser(t: Tables, v: VerifiedLaser): Option<Tables> {
    if WellFormedLaser(v) && LaserEligible(t, v)
    then Some(t.(assignments := t.assignments[v.device := Assignment(Active, v.toProject, v.toSnapshot, v.epoch + 1)],
                 log := t.log + [LaserRow(v)]))
    else None
  }

  predicate LaserPreflight(t: Tables, device: Id, fromProject: Id, fromSnapshot: Id, toProject: Id, toSnapshot: Id,
                           epoch: int)
  {
    && LaserScope(device, fromProject, fromSnapshot, toProject, toSnapshot, epoch)
    && LaserReady(t, device) && device in t.assignments
    && LaserSource(t.assignments[device], fromProject, fromSnapshot, toProject, epoch)
    && LaserTarget(t.env, device, toProject, toSnapshot)
    && toProject !in t.env.shows
    && !HasPendingCommand(t.commands, device)
  }

  // ---------------------------------------------------------------- legacy migration

  predicate MigrationEligible(t: Tables, device: Id, project: Id) {
    && device != NO_ID && project != NO_ID && device in t.devices && device in t.assignments
    && t.devices[device] == Device(V1, LightingNode, Generic, project, true)
    && var a := t.assignments[device];
    && a.state == Legacy && a.project == project && a.snapshot == NO_ID && 0 < a.epoch
    && project !in t.env.sessions
    && !HasPendingCommand(t.commands, device)
  }

  function MigrateLegacy(t: Tables, id: Id, device: Id, project: Id, actor: Id): Option<Tables> {
    if actor != NO_ID && MigrationEligible(t, device, project) then
      var epoch := t.assignments[device].epoch;
      Some(t.(devices := t.devices[device := t.devices[device].(project := NO_ID, protocol := V2)],
              assignments := t.assignments[device := Assignment(Blocked, project, NO_ID, epoch + 1)],
              log := t.log + [MigrationAudit(id, device, actor, project, epoch, epoch + 1)]))
    else None
  }

  // ---------------------------------------------------------------- enrolment

  predicate ActiveProfile(d: Device) {
    || (d.kind == TabletPlayer && d.profile == TabletProfile)
    || d.profile == LightingNode
    || (d.kind == Generic && d.profile == StageLaserProfile)
  }

  predicate ReconnectLegal(t: Tables, device: Id, profile: Profile, kind: Kind) {
    && device in t.devices && device in t.assignments
    && var d := t.devices[device];
    && var a := t.assignments[device];
    && d.protocol == V2 && d.kind == kind && d.profile == profile && d.project == NO_ID && d.enabled
    && StateShape(a)
    && (a.state == Active ==> ActiveProfile(d))
    && (a.state == Active && d.profile == StageLaserProfile ==>
          LaserAudits(t.log, device, a.project, a.snapshot, a.epoch) == 1)
  }

  /** An authenticated v2 hello: a new identity starts UNASSIGNED, a known one only refreshes
      metadata that the protocol never reads. */
  function RegisterV2(t: Tables, device: Id, profile: Profile, kind: Kind): Option<Tables> {
    if device == NO_ID then None
    else if device in t.devices then
      if ReconnectLegal(t, device, profile, kind) then Some(t) else None
    else
      Some(t.(devices := t.devices[device := Device(V2, profile, kind, NO_ID, true)],
              assignments := t.assignments[device := Assignment(Unassigned, NO_ID, NO_ID, 1)]))
  }

  /** A v1 hello: inserts a LEGACY identity, or rewrites the metadata of a row whose project it
      repeats, protocol and profile included. */
  function UpsertV1(t: Tables, device: Id, project: Id, profile: Profile, kind: Kind): Option<Tables> {
    if device == NO_ID then None
    else if device !in t.devices then
      Some(t.(devices := t.devices[device := Device(V1, profile, kind, project, true)],
              assignments := t.assignments[device := Assignment(Legacy, project, NO_ID, 1)]))
    else if t.devices[device].project == project then
      Some(t.(devices := t.devices[device := Device(V1, profile, kind, project, t.devices[device].enabled)]))
    else None
  }

  // ---------------------------------------------------------------- acknowledgments, commands, generations

  predicate BlackoutReport(project: Id, epoch: int, generation: int, blackout: bool, levels: seq<int>) {
    project != NO_ID && 1 < epoch && 1 <= generation && blackout && |levels| == MAX_CHANNELS && AllZero(levels)
  }

  /** Upsert of an epoch acknowledgment; the project of an existing row is never rewritten. */
  function RecordAck(t: Tables, device: Id, project: Id, epoch: int, generation: int, blackout: bool,
                     levels: seq<int>): Option<Tables>
  {
    if device == NO_ID || !BlackoutReport(project, epoch, generation, blackout, levels) then None
    else
      var key := EpochKey(device, epoch);
      if key in t.acks && t.acks[key].project != project then Some(t)
      else if key in t.acks then Some(t.(acks := t.acks[key := t.acks[key].(generation := generation)]))
      else Some(t.(acks := t.acks[key := EpochAck(project, generation, |levels|)]))
  }

  /** The part of the authority check of a new command that reads the device record. */
  predicate DeviceMay(t: Tables, device: Id, project: Id) {
    && project != NO_ID && device in t.devices
    && var d := t.devices[device];
    && d.enabled
    && match d.protocol
       case V1 => d.project == project
       case V2 => d.project == NO_ID && ActiveProfile(d)
  }

  /** The part that reads the assignment, for the protocol that the device record named. */
  predicate ScopeMay(t: Tables, protocol: Protocol, device: Id, project: Id, snapshot: Id) {
    && device in t.assignments
    && var a := t.assignments[device];
    && match protocol
       case V1 => a.state == Legacy && a.project == project
       case V2 => a.state == Active && a.project == project && a.snapshot != NO_ID && a.snapshot == snapshot
  }

  /** A stored command that an idempotent request stands for. */
  predicate StandsFor(t: Tables, existing: Id, device: Id, key: Id) {
    key != NO_ID && existing in t.commands && t.commands[existing].device == device && t.commands[existing].key == key
  }

  function Complete(t: Tables, command: Id, status: CommandStatus): Tables {
    if command in t.commands && t.commands[command].status == Accepted && status != Accepted
    then t.(commands := t.commands[command := t.commands[command].(status := status)])
    else t
  }

  function AllocateGeneration(t: Tables): Option<Tables> {
    if t.generation < MAX_GENERATION then Some(t.(generation := t.generation + 1)) else None
  }
}
