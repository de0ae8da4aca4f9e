/** What must be true of the rest of the Hub at the moment an assignment row moves. */
module MoveGuards {
  import opened StageTypes
  import opened AssignmentCommits
  import opened HubMachine
  import opened CommandFence
  import opened FenceTheorems

  /** The device is a v2 device for its kind of move, or a legacy lighting node that is migrated. */
  ghost predicate MovableDevice(t: Tables, device: Id, migrated: bool) {
    && device in t.devices && t.devices[device].enabled
    && if migrated then t.devices[device].protocol == V1 && t.devices[device].profile == LightingNode
       else t.devices[device].protocol == V2 && t.devices[device].project == NO_ID && ActiveProfile(t.devices[device])
  }

  /** The target is there: a Project to be blocked for, a published snapshot of its Project to be active on;
      for a lighting node the snapshot binds a configuration, a StageLaser is one of its targets and does not
      leave its Project. */
  ghost predicate TargetExists(t: Tables, device: Id, a: Assignment, b: Assignment)
    requires device in t.devices
  {
    && (a.state != Legacy && b.state == Blocked ==> b.project in t.env.projects)
    && (a.state != Legacy && b.state != Active && a.project != NO_ID ==>
          a.project in t.env.projects || t.devices[device].profile != LightingNode)
    && (b.state == Active ==>
          b.snapshot in t.env.snapshots && t.env.snapshots[b.snapshot].published &&
          t.env.snapshots[b.snapshot].project == b.project)
    && (b.state == Active && t.devices[device].profile == LightingNode ==>
          a.state == Blocked && b.project == a.project && device in t.env.snapshots[b.snapshot].lighting)
    && (b.state == Active && t.devices[device].profile == StageLaserProfile ==>
          device in t.env.snapshots[b.snapshot].lasers && (a.project == NO_ID || a.project == b.project))
    && b.state != Legacy && (b.state == Active ==> b.project != NO_ID && b.snapshot != NO_ID)
    && (b.state == Unassigned ==> b.project == NO_ID && b.snapshot == NO_ID)
    && (b.state == Blocked ==> b.project != NO_ID && b.snapshot == NO_ID && t.devices[device].profile == LightingNode)
  }

  /** A row moves only while its device is idle, no SHOW runs in the Projects it leaves and enters (for
      a migration: no session at all), and only to a target that is there. */
  ghost predicate GuardedMove(t: Tables, device: Id, a: Assignment, b: Assignment) {
    && !HasPendingCommand(t.commands, device)
    && MovableDevice(t, device, a.state == Legacy)
    && (if a.state == Legacy then a.project !in t.env.sessions
        else !Locked(t.env, a.project) && !Locked(t.env, b.project))
    && TargetExists(t, device, a, b)
    && b.epoch == a.epoch + (if a.state == Blocked && b.state == Active then 0 else 1)
  }

  ghost predicate MovesGuarded(t: Tables, u: Tables) {
    forall d | d in t.assignments :: d in u.assignments &&
      (u.assignments[d] == t.assignments[d] || GuardedMove(t, d, t.assignments[d], u.assignments[d]))
  }

  lemma TransferGuarded(t: Tables, v: VerifiedTransfer, generated: Id)
    requires CommitTransfer(t, v, generated).Some?
    ensures MovesGuarded(t, CommitTransfer(t, v, generated).value.tables)
  {
    hide HasPendingCommand, Activations;
  }

  lemma CommitGuarded(t: Tables, id: Id, h: Handshake)
    requires AckMatches(id, h) && CommitTables(t, id, h).Some?
    ensures MovesGuarded(t, CommitTables(t, id, h).value)
  {
    hide HasPendingCommand, CommitTransfer, Activations;
    match h.plan.kind {
      case Blackout => TransferGuarded(t, TransferInput(id, h), NO_ID);
      case Activation =>
      case TabletMove =>
      case LaserMove =>
    }
  }

  lemma MigrationGuarded(t: Tables, id: Id, device: Id, project: Id, actor: Id)
    requires MigrateLegacy(t, id, device, project, actor).Some?
    ensures MovesGuarded(t, MigrateLegacy(t, id, device, project, actor).value)
  {
    hide HasPendingCommand;
  }

  lemma Unmoved(t: Tables, u: Tables)
    requires forall d | d in t.assignments :: d in u.assignments && u.assignments[d] == t.assignments[d]
    ensures MovesGuarded(t, u)
  {
    hide GuardedMove;
  }

  lemma HandshakeGuarded(s: Hub, a: HandshakeStep)
    ensures MovesGuarded(s.t, DoHandshake(s, a).t)
  {
    hide MovesGuarded, AckMatches, Preflight, Live, CommitTables, MigrateLegacy, ExpireStale;
    if a.Commit? && ReadyToCommit(s, a.id) && CommitTables(s.t, a.id, s.work.handshakes[a.id]).Some? {
      CommitGuarded(s.t, a.id, s.work.handshakes[a.id]);
    } else if a.Migrate? && MigrateLegacy(s.t, a.id, a.device, a.project, a.actor).Some? {
      MigrationGuarded(s.t, a.id, a.device, a.project, a.actor);
    } else {
      Unmoved(s.t, DoHandshake(s, a).t);
    }
  }

  lemma LinkGuarded(s: Hub, a: LinkStep)
    requires s.t.devices.Keys == s.t.assignments.Keys
    ensures MovesGuarded(s.t, DoLink(s, a).t)
  {
    hide MovesGuarded, ReconnectLegal;
    Unmoved(s.t, DoLink(s, a).t);
  }

  lemma DispatchGuarded(s: Hub, a: DispatchStep)
    ensures MovesGuarded(s.t, DoDispatch(s, a).t)
  {
    hide MovesGuarded, DeviceMay, ScopeMay, StandsFor, Fresh, CanBind;
    Unmoved(s.t, DoDispatch(s, a).t);
  }

  /** Whatever step is taken in whatever reachable state, an enrolled row either stays or makes a
      guarded move. */
  lemma EveryMoveIsGuarded(s: Hub, a: Action)
    requires FenceInv(s)
    ensures MovesGuarded(s.t, Apply(s, a).t)
  {
    hide MovesGuarded, DoLink, DoHandshake, DoDispatch, ScopesExact, BoundToScope, ScopeAuthoritative, ScopeReported;
    hide NeedsLock, MayAnswer, Starting;
    if Apply(s, a) == s {
      Unmoved(s.t, s.t);
      return;
    }
    match a {
      case Link(x) => LinkGuarded(s, x);
      case Handshaking(x) => HandshakeGuarded(s, x);
      case Dispatching(x) => DispatchGuarded(s, x);
      case _ => Unmoved(s.t, Apply(s, a).t);
    }
  }

  /** So in every run each move of an enrolled row is guarded. */
  lemma MovesInRunsAreGuarded(env: Env, generation: int, actions: seq<Action>, a: Action)
    ensures MovesGuarded(Run(Init(env, generation), actions).t, Run(Init(env, generation), actions + [a]).t)
  {
    hide Apply, FenceInv, MovesGuarded;
    InitKeepsFence(env, generation);
    RunKeepsFence(Init(env, generation), actions);
    EveryMoveIsGuarded(Run(Init(env, generation), actions), a);
    assert (actions + [a])[..|actions|] == actions;
  }

  // ---------------------------------------------------------------- what a transaction insists on

  /** Twelve channels, all at zero. */
  predicate AllOff(levels: seq<int>) {
    |levels| == 12 && forall i | 0 <= i < 12 :: levels[i] == 0
  }

  /** A transfer is committed only with the device's own dark answer to this very challenge, and under a
      reservation only if that was made for the same transfer by the same operator and has not ended otherwise. */
  lemma TransferIsVerified(t: Tables, v: VerifiedTransfer, generated: Id)
    requires CommitTransfer(t, v, generated).Some?
    ensures v.ackDevice == v.device && v.ackEpoch == v.epoch && v.ackGeneration == v.generation
    ensures v.ackChallenge == v.challenge != NO_ID && v.ackBlackout && AllOff(v.ackLevels)
    ensures v.reservation != NO_ID ==>
              && v.reservation in t.intents
              && var i := t.intents[v.reservation];
              && i.device == v.device && i.fromProject == v.fromProject && i.toProject == v.toProject
              && i.epoch == v.epoch && i.generation == v.generation && i.digest == Sha256(v.challenge)
              && i.actor == v.actor && ((i.status == Pending && t.env.now < i.expires) || i.status == Committed)
  {
    hide HasPendingCommand, Activations, FindTransfer;
  }

  lemma ActivationIsVerified(t: Tables, v: VerifiedActivation)
    requires CommitActivation(t, v).Some?
    ensures v.ackDevice == v.device && v.ackProject == v.project && v.ackSnapshot == v.snapshot
    ensures v.ackEpoch == v.epoch && v.ackGeneration == v.generation && v.ackChallenge == v.challenge != NO_ID
    ensures v.ackConfig == v.config != NO_ID && v.ackBlackout && AllOff(v.ackLevels)
    ensures v.snapshot in t.env.snapshots && v.device in t.env.snapshots[v.snapshot].lighting &&
            t.env.snapshots[v.snapshot].lighting[v.device] == v.config
    ensures EpochKey(v.device, v.epoch) in t.acks && t.acks[EpochKey(v.device, v.epoch)].generation == v.generation
  {
    hide HasPendingCommand;
  }

  lemma TabletIsVerified(t: Tables, v: VerifiedTablet)
    requires CommitTablet(t, v).Some?
    ensures v.ackDevice == v.device && v.ackEpoch == v.epoch && v.ackGeneration == v.generation
    ensures v.ackChallenge == v.challenge != NO_ID && v.ackSafe
    ensures v.device in t.assignments && t.assignments[v.device].project == v.fromProject &&
            t.assignments[v.device].snapshot == v.fromSnapshot && t.assignments[v.device].epoch == v.epoch
  {
    hide HasPendingCommand;
  }

  lemma LaserIsVerified(t: Tables, v: VerifiedLaser)
    requires CommitLaser(t, v).Some?
    ensures v.ackDevice == v.device && v.ackEpoch == v.epoch && v.ackGeneration == v.generation
    ensures v.ackChallenge == v.challenge != NO_ID
    ensures var o := v.observation;
            o.valid && o.contractMatches && o.disarmed && o.off && !o.resync && !o.pulse && !o.flash &&
            (o.quality == Tracked || o.quality == Confirmed)
    ensures v.device in t.assignments && t.assignments[v.device].epoch == v.epoch &&
            (t.assignments[v.device].state == Unassigned || t.assignments[v.device].state == Active)
  {
    hide HasPendingCommand;
  }
}
