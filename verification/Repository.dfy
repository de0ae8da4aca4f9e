/** The assignment repository as it is written: one object whose methods check, update rows in place
    and roll back, each proved to do exactly what its transaction is specified to do. */
module Repository {
  import opened StageTypes
  import opened AssignmentCommits

  /** Every level of an acknowledgment is zero. */
  method AllLevelsZero(levels: seq<int>) returns (zero: bool)
    ensures zero == AllZero(levels)
  {
    for i := 0 to |levels|
      invariant forall k | 0 <= k < i :: levels[k] == 0
    {
      if levels[i] != 0 { return false; }
    }
    return true;
  }

  /** No named project runs a SHOW; each named one must exist when `existing` asks for it. */
  method ProjectsFree(env: Env, projects: seq<Id>, existing: bool) returns (free: bool)
    ensures free == forall k | 0 <= k < |projects| :: projects[k] != NO_ID ==>
                      (existing ==> projects[k] in env.projects) && projects[k] !in env.shows
  {
    for i := 0 to |projects|
      invariant forall k | 0 <= k < i :: projects[k] != NO_ID ==>
                  (existing ==> projects[k] in env.projects) && projects[k] !in env.shows
    {
      if projects[i] == NO_ID { continue; }
      if existing && projects[i] !in env.projects { return false; }
      if projects[i] in env.shows { return false; }
    }
    return true;
  }

  class AssignmentRepository {
    var devices: map<Id, Device>
    var assignments: map<Id, Assignment>
    var log: seq<Audit>
    var intents: map<Id, Intent>
    var acks: map<EpochKey, EpochAck>
    var commands: map<Id, Command>
    var generation: int
    var env: Env

    function Rows(): Tables
      reads this
    {
      Tables(devices, assignments, log, intents, acks, commands, generation, env)
    }

    constructor (e: Env, g: int)
      ensures Rows() == Tables(map[], map[], [], map[], map[], map[], g, e)
    {
      devices, assignments, log, intents, acks, commands, generation, env :=
        map[], map[], [], map[], map[], map[], g, e;
    }

    /** A transaction that ends without commit leaves every row as it found it. */
    method Rollback(before: Tables)
      modifies this
      ensures Rows() == before
    {
      devices, assignments, log, intents := before.devices, before.assignments, before.log, before.intents;
      acks, commands, generation, env := before.acks, before.commands, before.generation, before.env;
    }

    // ---------------------------------------------------------------- blackout transfer

    method CheckReservation(v: VerifiedTransfer) returns (matches: bool)
      ensures matches == ReservationMatches(Rows(), v)
    {
      if v.reservation == NO_ID { return true; }
      if v.reservation !in intents { return false; }
      var i := intents[v.reservation];
      matches := !(i.device != v.device || i.fromProject != v.fromProject || i.toProject != v.toProject ||
                   i.epoch != v.epoch || i.generation != v.generation || i.channels != MAX_CHANNELS ||
                   i.digest != Sha256(v.challenge) || i.actor != v.actor ||
                   (i.status != Pending && i.status != Committed) || (i.status == Pending && env.now >= i.expires));
    }

    method CommitVerifiedBlackoutTransfer(v: VerifiedTransfer, generated: Id) returns (r: Option<TransferRecord>)
      modifies this
      ensures match CommitTransfer(old(Rows()), v, generated)
              case None => r.None? && Rows() == old(Rows())
              case Some(o) => r == Some(o.record) && Rows() == o.tables
    {
      hide StateShape, HasPendingCommand, Activations;
      r := None;
      if v.device == NO_ID || v.actor == NO_ID || v.key == NO_ID || v.fromProject == v.toProject ||
         v.epoch <= 0 || v.epoch >= MAX_INT64 || v.generation <= 0 || v.ackDevice != v.device ||
         v.ackEpoch != v.epoch || v.ackGeneration != v.generation || !v.ackBlackout ||
         v.ackChallenge != v.challenge || |v.ackLevels| != MAX_CHANNELS || v.challenge == NO_ID { return; }
      var zero := AllLevelsZero(v.ackLevels);
      if !zero { return; }
      var matches := CheckReservation(v);
      if !matches { return; }
      var first := FindTransfer(log, v.device, v.key);
      if first.Some? {
        if SameTransfer(first.value, v) { r := Some(RecordOf(first.value, true)); }
        return;
      }
      if v.device !in assignments || v.device !in devices { return; }
      var a, d := assignments[v.device], devices[v.device];
      if a.project != v.fromProject || a.epoch != v.epoch || !StateShape(a) || d.protocol != V2 ||
         d.profile != LightingNode || d.project != NO_ID || !d.enabled { return; }
      if a.state == Active && Activations(log, v.device, a.project, a.snapshot, a.epoch) != 1 { return; }
      var free := ProjectsFree(env, [v.fromProject, v.toProject], true);
      assert free == (ProjectFree(env, v.fromProject) && ProjectFree(env, v.toProject)) by {
        var p := [v.fromProject, v.toProject];
        assert p[0] == v.fromProject && p[1] == v.toProject;
      }
      if !free || HasPendingCommand(commands, v.device) { return; }
      var before := Rows();
      var next := if v.toProject == NO_ID then Unassigned else Blocked;
      assignments := assignments[v.device := Assignment(next, v.toProject, NO_ID, v.epoch + 1)];
      var id := if v.reservation == NO_ID then generated else v.reservation;
      log := log + [TransferAudit(id, v.device, v.key, v.actor, v.fromProject, v.toProject, v.epoch, v.epoch + 1,
                                  v.generation, Sha256(v.challenge), next)];
      if v.reservation != NO_ID {
        if intents[v.reservation].status != Pending || intents[v.reservation].expires <= env.now {
          Rollback(before);
          return;
        }
        intents := intents[v.reservation := intents[v.reservation].(status := Committed)];
      }
      r := Some(TransferRecord(id, v.device, v.fromProject, v.toProject, v.epoch, v.epoch + 1, next, false));
    }

    // ---------------------------------------------------------------- transfer intents

    /** Answers whether the preflight let the reservation through. */
    method ReserveTransferIntent(q: TransferRequest, id: Id, g: int, channels: int, actor: Id, challenge: Id)
      returns (reserved: bool)
      modifies this
      ensures reserved == (1 <= g && 0 < channels <= 512 && actor != NO_ID && TransferPreflight(old(Rows()), q))
      ensures Rows() == if reserved then ReserveIntent(old(Rows()), q, id, g, channels, actor, challenge)
              else old(Rows())
    {
      hide StateShape, HasPendingCommand, Activations;
      reserved := false;
      if g < 1 || channels <= 0 || channels > 512 || actor == NO_ID { return; }
      var admitted := PreflightTransfer(q);
      if !admitted { return; }
      intents := ExpireStale(intents, q.device, env.now);
      intents := intents[id := Intent(q.device, q.fromProject, q.toProject, q.epoch, g, channels, Sha256(challenge),
                                      Pending, actor, env.now + RESERVATION_TTL_US)];
      reserved := true;
    }

    method PreflightTransfer(q: TransferRequest) returns (admitted: bool)
      ensures admitted == TransferPreflight(Rows(), q)
    {
      hide StateShape, HasPendingCommand, Activations;
      admitted := false;
      if q.device == NO_ID || q.epoch < 1 || q.fromProject == q.toProject { return; }
      if q.device !in devices || q.device !in assignments { return; }
      var d, a := devices[q.device], assignments[q.device];
      if d.protocol != V2 || !d.enabled || d.profile != LightingNode { return; }
      if a.project != q.fromProject || a.epoch != q.epoch || !StateShape(a) { return; }
      if a.state == Active && Activations(log, q.device, a.project, a.snapshot, a.epoch) != 1 { return; }
      if d.project != NO_ID { return; }
      var free := ProjectsFree(env, [q.fromProject, q.toProject], true);
      assert free == (ProjectFree(env, q.fromProject) && ProjectFree(env, q.toProject)) by {
        var p := [q.fromProject, q.toProject];
        assert p[0] == q.fromProject && p[1] == q.toProject;
      }
      admitted := free && !HasPendingCommand(commands, q.device);
    }

    method CancelTransferIntent(id: Id, device: Id, actor: Id)
      modifies `intents
      ensures Rows() == CancelIntent(old(Rows()), id, device, actor)
    {
      if id in intents && intents[id].device == device && intents[id].actor == actor && intents[id].status == Pending {
        intents := intents[id := intents[id].(status := Cancelled)];
      }
    }

    // ---------------------------------------------------------------- lighting activation

    method PreflightLightingActivation(device: Id, project: Id, snapshot: Id, epoch: int, g: int)
      returns (plan: Option<Id>)
      ensures plan == ActivationPreflight(Rows(), device, project, snapshot, epoch, g)
    {
      hide HasPendingCommand;
      plan := None;
      if device == NO_ID || project == NO_ID || snapshot == NO_ID || epoch <= 1 || g <= 0 { return; }
      if device !in devices { return; }
      var d := devices[device];
      if !d.enabled || d.protocol != V2 || d.profile != LightingNode || d.project != NO_ID { return; }
      if device !in assignments { return; }
      var a := assignments[device];
      if a.state != Blocked || a.project != project || a.snapshot != NO_ID || a.epoch != epoch { return; }
      var key := EpochKey(device, epoch);
      if key !in acks || acks[key].project != project || acks[key].generation != g ||
         acks[key].channels != MAX_CHANNELS { return; }
      var config := LightingConfig(env, device, project, snapshot);
      if config.None? { return; }
      if project in env.shows { return; }
      if HasPendingCommand(commands, device) { return; }
      plan := config;
    }

    method CommitLightingActivation(v: VerifiedActivation) returns (committed: bool)
      modifies this
      ensures match CommitActivation(old(Rows()), v)
              case None => !committed && Rows() == old(Rows())
              case Some(t) => committed && Rows() == t
    {
      hide HasPendingCommand, LightingConfig;
      committed := false;
      if v.id == NO_ID || v.device == NO_ID || v.project == NO_ID || v.snapshot == NO_ID || v.actor == NO_ID ||
         v.epoch <= 1 || v.generation <= 0 || v.config == NO_ID || v.ackDevice != v.device ||
         v.ackProject != v.project || v.ackSnapshot != v.snapshot || v.ackEpoch != v.epoch ||
         v.ackGeneration != v.generation || v.ackChallenge != v.challenge || v.ackConfig != v.config ||
         !v.ackBlackout || |v.ackLevels| != MAX_CHANNELS { return; }
      var zero := AllLevelsZero(v.ackLevels);
      if !zero || v.challenge == NO_ID { return; }
      if v.device !in assignments || v.device !in devices { return; }
      var a, d := assignments[v.device], devices[v.device];
      if EpochKey(v.device, a.epoch) !in acks { return; }
      if a.state != Blocked || a.project != v.project || a.snapshot != NO_ID || a.epoch != v.epoch ||
         d.protocol != V2 || d.profile != LightingNode || d.project != NO_ID || !d.enabled ||
         acks[EpochKey(v.device, a.epoch)].generation != v.generation { return; }
      if LightingConfig(env, v.device, v.project, v.snapshot) != Some(v.config) { return; }
      if v.project in env.shows { return; }
      if HasPendingCommand(commands, v.device) { return; }
      assignments := assignments[v.device := a.(state := Active, snapshot := v.snapshot)];
      log := log + [ActivationAudit(v.id, v.device, v.actor, v.project, v.snapshot, v.epoch, v.generation,
                                    Sha256(v.challenge), v.config)];
      committed := true;
    }

    // ---------------------------------------------------------------- tablet and StageLaser assignment

    method PreflightTabletAssignment(device: Id, fromProject: Id, fromSnapshot: Id, toProject: Id, toSnapshot: Id,
                                     epoch: int) returns (admitted: bool)
      ensures admitted == TabletPreflight(Rows(), device, fromProject, fromSnapshot, toProject, toSnapshot, epoch)
    {
      hide HasPendingCommand;
      admitted := false;
      if device == NO_ID || epoch <= 0 || epoch >= MAX_INT64 || !ScopePair(fromProject, fromSnapshot) ||
         !ScopePair(toProject, toSnapshot) || (fromProject == toProject && fromSnapshot == toSnapshot) { return; }
      if device !in devices { return; }
      var d := devices[device];
      if !d.enabled || d.protocol != V2 || d.kind != TabletPlayer || d.profile != TabletProfile ||
          d.project != NO_ID { return; }
      if device !in assignments { return; }
      var a := assignments[device];
      if a.epoch != epoch || a.project != fromProject || a.snapshot != fromSnapshot ||
         (a.state != Unassigned && a.state != Active) || (a.state == Unassigned && !ScopePair(a.project, a.snapshot)) ||
         (a.state == Active && (a.project == NO_ID || a.snapshot == NO_ID)) { return; }
      if a.state == Unassigned && (a.project != NO_ID || a.snapshot != NO_ID) { return; }
      if toProject != NO_ID {
        if toSnapshot !in env.snapshots { return; }
        var s := env.snapshots[toSnapshot];
        if s.project != toProject || !s.published { return; }
      }
      var free := ProjectsFree(env, [fromProject, toProject], false);
      assert free == (!Locked(env, fromProject) && !Locked(env, toProject)) by {
        var p := [fromProject, toProject];
        assert p[0] == fromProject && p[1] == toProject;
      }
      admitted := free && !HasPendingCommand(commands, device);
    }

    method CommitTabletSafeAssignment(v: VerifiedTablet) returns (committed: bool)
      modifies this
      ensures match CommitTablet(old(Rows()), v)
              case None => !committed && Rows() == old(Rows())
              case Some(t) => committed && Rows() == t
    {
      hide HasPendingCommand;
      committed := false;
      if v.id == NO_ID || v.device == NO_ID || v.actor == NO_ID || v.epoch <= 0 || v.epoch >= MAX_INT64 ||
         v.generation <= 0 || !ScopePair(v.fromProject, v.fromSnapshot) || !ScopePair(v.toProject, v.toSnapshot) ||
         v.ackDevice != v.device || v.ackEpoch != v.epoch || v.ackGeneration != v.generation || !v.ackSafe ||
         v.ackChallenge != v.challenge || v.challenge == NO_ID { return; }
      if v.device !in assignments || v.device !in devices { return; }
      var a, d := assignments[v.device], devices[v.device];
      if a.epoch != v.epoch || a.project != v.fromProject || a.snapshot != v.fromSnapshot ||
         (a.state != Unassigned && a.state != Active) || d.protocol != V2 || d.profile != TabletProfile ||
         d.kind != TabletPlayer || d.project != NO_ID || !d.enabled { return; }
      if v.toProject != NO_ID {
        if v.toSnapshot !in env.snapshots { return; }
        var s := env.snapshots[v.toSnapshot];
        if s.project != v.toProject || !s.published { return; }
      }
      var free := ProjectsFree(env, [v.fromProject, v.toProject], false);
      assert free == (!Locked(env, v.fromProject) && !Locked(env, v.toProject)) by {
        var p := [v.fromProject, v.toProject];
        assert p[0] == v.fromProject && p[1] == v.toProject;
      }
      if !free || HasPendingCommand(commands, v.device) { return; }
      var next := if v.toProject == NO_ID then Unassigned else Active;
      assignments := assignments[v.device := Assignment(next, v.toProject, v.toSnapshot, v.epoch + 1)];
      log := log + [TabletAudit(v.id, v.device, v.actor, v.fromProject, v.toProject, v.fromSnapshot, v.toSnapshot,
                                v.epoch, v.epoch + 1, v.generation, Sha256(v.challenge), next)];
      committed := true;
    }

    method PreflightStageLaserAssignment(device: Id, fromProject: Id, fromSnapshot: Id, toProject: Id, toSnapshot: Id,
                                         epoch: int) returns (admitted: bool)
      ensures admitted == LaserPreflight(Rows(), device, fromProject, fromSnapshot, toProject, toSnapshot, epoch)
    {
      hide HasPendingCommand, LaserTarget;
      admitted := false;
      if device == NO_ID || toProject == NO_ID || toSnapshot == NO_ID || epoch <= 0 || epoch >= MAX_INT64 ||
         !ScopePair(fromProject, fromSnapshot) || (fromProject != NO_ID && fromProject != toProject) ||
         (fromSnapshot != NO_ID && fromSnapshot == toSnapshot) { return; }
      if device !in devices { return; }
      var d := devices[device];
      if !d.enabled || d.protocol != V2 || d.kind != Generic || d.profile != StageLaserProfile ||
          d.project != NO_ID { return; }
      if device !in assignments { return; }
      var a := assignments[device];
      var source := match a.state
        case Unassigned => fromProject == NO_ID && fromSnapshot == NO_ID && a.project == NO_ID && a.snapshot == NO_ID
        case Active => fromProject != NO_ID && fromSnapshot != NO_ID && a.project == fromProject &&
                       a.snapshot == fromSnapshot && toProject == a.project
        case _ => false;
      if a.epoch != epoch || !source { return; }
      if !LaserTarget(env, device, toProject, toSnapshot) { return; }
      admitted := toProject !in env.shows && !HasPendingCommand(commands, device);
    }

    method CommitStageLaserSafeAssignment(v: VerifiedLaser) returns (committed: bool)
      modifies this
      ensures match CommitLaser(old(Rows()), v)
              case None => !committed && Rows() == old(Rows())
              case Some(t) => committed && Rows() == t
    {
      hide HasPendingCommand, LaserTarget;
      committed := false;
      if v.id == NO_ID || v.device == NO_ID || v.toProject == NO_ID || v.toSnapshot == NO_ID || v.actor == NO_ID ||
         v.epoch <= 0 || v.epoch >= MAX_INT64 || !ScopePair(v.fromProject, v.fromSnapshot) ||
         (v.fromProject != NO_ID && v.fromProject != v.toProject) ||
         (v.fromSnapshot != NO_ID && v.fromSnapshot == v.toSnapshot) || v.generation <= 0 ||
         v.ackDevice != v.device || v.ackEpoch != v.epoch || v.ackGeneration != v.generation ||
         v.ackChallenge != v.challenge { return; }
      if !LaserSafe(v.observation) || v.challenge == NO_ID { return; }
      if v.device !in assignments || v.device !in devices { return; }
      var a, d := assignments[v.device], devices[v.device];
      var source := match a.state
        case Unassigned => v.fromProject == NO_ID && v.fromSnapshot == NO_ID && a.project == NO_ID &&
            a.snapshot == NO_ID
        case Active => v.fromProject != NO_ID && v.fromSnapshot != NO_ID && a.project == v.fromProject &&
                       a.snapshot == v.fromSnapshot && v.toProject == a.project
        case _ => false;
      if !source || a.epoch != v.epoch || d.protocol != V2 || d.profile != StageLaserProfile || d.kind != Generic ||
         d.project != NO_ID || !d.enabled { return; }
      if !LaserTarget(env, v.device, v.toProject, v.toSnapshot) { return; }
      if v.toProject in env.shows { return; }
      if HasPendingCommand(commands, v.device) { return; }
      assignments := assignments[v.device := Assignment(Active, v.toProject, v.toSnapshot, v.epoch + 1)];
      log := log + [LaserAudit(v.id, v.device, v.actor, v.toProject, v.toSnapshot, v.epoch, v.epoch + 1, v.generation,
                               Sha256(v.challenge), v.observation.quality)];
      committed := true;
    }

    // ---------------------------------------------------------------- enrolment and migration

    method MigrateLegacyLightingToV2Blocked(id: Id, device: Id, project: Id, actor: Id) returns (migrated: bool)
      modifies this
      ensures match MigrateLegacy(old(Rows()), id, device, project, actor)
              case None => !migrated && Rows() == old(Rows())
              case Some(t) => migrated && Rows() == t
    {
      hide HasPendingCommand;
      migrated := false;
      if device == NO_ID || project == NO_ID || actor == NO_ID { return; }
      if device !in devices || device !in assignments { return; }
      var d, a := devices[device], assignments[device];
      if !d.enabled || d.protocol != V1 || d.project != project || d.profile != LightingNode || d.kind != Generic ||
         a.state != Legacy || a.project != project || a.snapshot != NO_ID || a.epoch <= 0 { return; }
      if project in env.sessions { return; }
      if HasPendingCommand(commands, device) { return; }
      devices := devices[device := d.(project := NO_ID, protocol := V2)];
      assignments := assignments[device := Assignment(Blocked, project, NO_ID, a.epoch + 1)];
      log := log + [MigrationAudit(id, device, actor, project, a.epoch, a.epoch + 1)];
      migrated := true;
    }

    method RegisterUnassignedV2(device: Id, profile: Profile, kind: Kind) returns (registered: bool)
      modifies this
      ensures match RegisterV2(old(Rows()), device, profile, kind)
              case None => !registered && Rows() == old(Rows())
              case Some(t) => registered && Rows() == t
    {
      hide LaserAudits;
      registered := false;
      if device == NO_ID { return; }
      if device in devices {
        if device !in assignments { return; }
        var d, a := devices[device], assignments[device];
        var valid := match a.state
          case Unassigned => a.project == NO_ID && a.snapshot == NO_ID
          case Blocked => a.project != NO_ID && a.snapshot == NO_ID
          case Active => a.project != NO_ID && a.snapshot != NO_ID && ActiveProfile(d)
          case Legacy => false;
        if valid && a.state == Active && d.profile == StageLaserProfile {
          valid := LaserAudits(log, device, a.project, a.snapshot, a.epoch) == 1;
        }
        registered := d.protocol == V2 && d.kind == kind && d.profile == profile && d.project == NO_ID &&
            d.enabled && valid;
        return;
      }
      devices := devices[device := Device(V2, profile, kind, NO_ID, true)];
      assignments := assignments[device := Assignment(Legacy, NO_ID, NO_ID, 1)];
      assignments := assignments[device := assignments[device].(state := Unassigned)];
      registered := true;
    }

    method UpsertDevice(device: Id, project: Id, profile: Profile, kind: Kind) returns (stored: bool)
      modifies this
      ensures match UpsertV1(old(Rows()), device, project, profile, kind)
              case None => !stored && Rows() == old(Rows())
              case Some(t) => stored && Rows() == t
    {
      stored := false;
      if device == NO_ID { return; }
      if device !in devices {
        devices := devices[device := Device(V1, profile, kind, project, true)];
        assignments := assignments[device := Assignment(Legacy, project, NO_ID, 1)];
        stored := true;
      } else if devices[device].project == project {
        devices := devices[device := devices[device].(protocol := V1, profile := profile, kind := kind)];
        stored := true;
      }
    }

    // ---------------------------------------------------------------- acknowledgments, generations, commands

    method RecordBlockedEpochAck(device: Id, project: Id, epoch: int, g: int, blackout: bool, levels: seq<int>)
      returns (recorded: bool)
      modifies `acks
      ensures match RecordAck(old(Rows()), device, project, epoch, g, blackout, levels)
              case None => !recorded && Rows() == old(Rows())
              case Some(t) => recorded && Rows() == t
    {
      recorded := false;
      if device == NO_ID || project == NO_ID || epoch <= 1 || g < 1 || !blackout || |levels| != MAX_CHANNELS { return; }
      var zero := AllLevelsZero(levels);
      if !zero { return; }
      var key := EpochKey(device, epoch);
      if key !in acks {
        acks := acks[key := EpochAck(project, g, |levels|)];
      } else if acks[key].project == project {
        acks := acks[key := acks[key].(generation := g)];
      }
      recorded := true;
    }

    method AllocateV2ConnectionGeneration() returns (g: Option<int>)
      modifies `generation
      ensures match AllocateGeneration(old(Rows()))
              case None => g == None && Rows() == old(Rows())
              case Some(t) => g == Some(t.generation) && Rows() == t
    {
      if generation >= MAX_GENERATION { return None; }
      generation := generation + 1;
      g := Some(generation);
    }

    /** What the device record allows a new command: `None`, or the protocol to check the assignment by. */
    method DeviceAuthority(device: Id, project: Id) returns (protocol: Option<Protocol>)
      ensures protocol == if DeviceMay(Rows(), device, project) then Some(devices[device].protocol) else None
    {
      protocol := None;
      if project == NO_ID || device !in devices { return; }
      var d := devices[device];
      if !d.enabled { return; }
      match d.protocol {
        case V1 => if d.project == NO_ID || d.project != project { return; }
        case V2 => if d.project != NO_ID || !ActiveProfile(d) { return; }
      }
      protocol := Some(d.protocol);
    }

    /** What the assignment allows it; read by a statement of its own. */
    method CommandAuthority(protocol: Protocol, device: Id, project: Id, snapshot: Id) returns (authorized: bool)
      ensures authorized == ScopeMay(Rows(), protocol, device, project, snapshot)
    {
      authorized := false;
      if device !in assignments { return; }
      var a := assignments[device];
      match protocol {
        case V1 => if a.state != Legacy || a.project != project { return; }
        case V2 =>
          if a.state != Active || a.project != project || a.snapshot == NO_ID || a.snapshot != snapshot { return; }
      }
      authorized := true;
    }

    /** The command that an idempotency key of this device stands for. */
    method FindByKey(device: Id, key: Id) returns (existing: Option<Id>)
      ensures existing.None? ==> forall x | x in commands :: !StandsFor(Rows(), x, device, key)
      ensures existing.Some? ==> StandsFor(Rows(), existing.value, device, key)
    {
      existing := None;
      if key == NO_ID { return; }
      var todo := commands.Keys;
      while exists x :: x in todo
        invariant todo <= commands.Keys
        invariant forall x | x in commands && x !in todo :: !StandsFor(Rows(), x, device, key)
        decreases |todo|
      {
        var x :| x in todo;
        if commands[x].device == device && commands[x].key == key { return Some(x); }
        todo := todo - {x};
      }
    }

    /** The first terminal status wins; a later one leaves the row alone. When the event of the result
        cannot be `recorded`, the row is ACCEPTED again. */
    method CompleteCommand(command: Id, status: CommandStatus, recorded: bool)
      requires status != Accepted
      modifies `commands
      ensures Rows() == if recorded then Complete(old(Rows()), command, status) else old(Rows())
    {
      if command !in commands || commands[command].status != Accepted { return; }
      commands := commands[command := commands[command].(status := status)];
      if !recorded { commands := commands[command := commands[command].(status := Accepted)]; }
    }
  }
}
