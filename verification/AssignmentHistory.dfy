/** What one step can do to assignment rows: nothing, enrol a device, or move one row and append the
    one audit row that replays the move. */
module AssignmentHistory {
  import opened StageTypes
  import opened AssignmentCommits
  import opened HubMachine

  // ---------------------------------------------------------------- replaying the audit log

  function EpochsOf(r: Audit): (int, int) {
    match r
    case TransferAudit(_, _, _, _, _, _, e, f, _, _, _) => (e, f)
    case ActivationAudit(_, _, _, _, _, e, _, _, _) => (e, e)
    case TabletAudit(_, _, _, _, _, _, _, e, f, _, _, _) => (e, f)
    case LaserAudit(_, _, _, _, _, e, f, _, _, _) => (e, f)
    case MigrationAudit(_, _, _, _, e, f) => (e, f)
  }

  /** The assignment a row leads to, if the row starts from `a`. */
  function ReplayRow(a: Assignment, r: Audit): Option<Assignment> {
    if EpochsOf(r).0 != a.epoch then None
    else
      match r
      case TransferAudit(_, _, _, _, fromProject, toProject, _, toEpoch, _, _, next) =>
        if a.project == fromProject && a.state != Legacy then Some(Assignment(next, toProject, NO_ID, toEpoch))
        else None
      case ActivationAudit(_, _, _, project, snapshot, epoch, _, _, _) =>
        if a == Assignment(Blocked, project, NO_ID, epoch) then Some(Assignment(Active, project, snapshot, epoch))
        else None
      case TabletAudit(_, _, _, fromProject, toProject, fromSnapshot, toSnapshot, _, toEpoch, _, _, next) =>
        if a.project == fromProject && a.snapshot == fromSnapshot && (a.state == Unassigned || a.state == Active)
        then Some(Assignment(next, toProject, toSnapshot, toEpoch)) else None
      case LaserAudit(_, _, _, project, snapshot, _, toEpoch, _, _, _) =>
        if a.state == Unassigned || (a.state == Active && a.project == project)
        then Some(Assignment(Active, project, snapshot, toEpoch)) else None
      case MigrationAudit(_, _, _, project, _, toEpoch) =>
        if a.state == Legacy && a.project == project && a.snapshot == NO_ID
        then Some(Assignment(Blocked, project, NO_ID, toEpoch)) else None
  }

  function Replay(enrolled: Assignment, log: seq<Audit>, device: Id): Option<Assignment> {
    if log == [] then Some(enrolled)
    else
      var last := log[|log| - 1];
      match Replay(enrolled, log[..|log| - 1], device)
      case None => None
      case Some(a) => if last.device == device then ReplayRow(a, last) else Some(a)
  }

  // ---------------------------------------------------------------- one step

  ghost predicate SameRows(s: Hub, n: Hub) {
    n.t.assignments == s.t.assignments && n.t.log == s.t.log && n.trace.enrolled == s.trace.enrolled
  }

  ghost predicate Enrols(s: Hub, n: Hub, device: Id) {
    && device !in s.t.assignments && device in n.t.assignments
    && n.t.assignments == s.t.assignments[device := n.t.assignments[device]]
    && n.t.assignments[device].epoch == 1 && n.t.assignments[device].state != Active
    && n.t.log == s.t.log && n.trace.enrolled == s.trace.enrolled[device := n.t.assignments[device]]
  }

  /** One row moved, and the one new audit row says how. */
  ghost predicate Audited(s: Hub, n: Hub, device: Id) {
    && device in s.t.assignments && device in s.t.devices && device in n.t.assignments
    && n.trace.enrolled == s.trace.enrolled
    && n.t.assignments == s.t.assignments[device := n.t.assignments[device]]
    && |n.t.log| == |s.t.log| + 1 && n.t.log[..|s.t.log|] == s.t.log
    && var row := n.t.log[|s.t.log|];
    && row.device == device
    && ReplayRow(s.t.assignments[device], row) == Some(n.t.assignments[device])
    && (row.ActivationAudit? || EpochsOf(row).1 == EpochsOf(row).0 + 1)
    && (row.ActivationAudit? ==> row.snapshot != NO_ID)
    && (row.TransferAudit? ==> row.next != Active)
    && (row.TabletAudit? ==> s.t.devices[device].profile == TabletProfile)
    && (row.LaserAudit? ==> s.t.devices[device].profile == StageLaserProfile)
    && (row.ActivationAudit? || row.TransferAudit? ==> s.t.devices[device].profile == LightingNode)
  }

  /** A device is v2 afterwards only if it already was, with the same profile, or has just been
      enrolled or migrated and is not ACTIVE. */
  ghost predicate KeepsV2(s: Hub, n: Hub) {
    forall d | d in n.t.devices && n.t.devices[d].protocol == V2 ::
      || (d in s.t.devices && s.t.devices[d].protocol == V2 && s.t.devices[d].profile == n.t.devices[d].profile)
      || (d in n.t.assignments && n.t.assignments[d].state != Active)
  }

  ghost predicate HistoryStep(s: Hub, n: Hub) {
    && (SameRows(s, n) || (exists d :: Enrols(s, n, d)) || (exists d :: Audited(s, n, d)))
    && KeepsV2(s, n)
  }

  lemma CommitIsHistory(s: Hub, id: Id)
    ensures HistoryStep(s, DoCommit(s, id))
  {
    if ReadyToCommit(s, id) {
      var h := s.work.handshakes[id];
      match h.plan.kind {
        case Blackout => TransferIsAudited(s, id);
        case Activation => ActivationIsAudited(s, id);
        case TabletMove => TabletIsAudited(s, id);
        case LaserMove => LaserIsAudited(s, id);
      }
    }
  }

  lemma TransferIsAudited(s: Hub, id: Id)
    requires ReadyToCommit(s, id) && s.work.handshakes[id].plan.kind == Blackout
    ensures HistoryStep(s, DoCommit(s, id))
  {
    var n := DoCommit(s, id);
    var o := CommitTransfer(s.t, TransferInput(id, s.work.handshakes[id]), NO_ID);
    if o.Some? && n.t.log != s.t.log { assert Audited(s, n, s.work.handshakes[id].plan.device); }
  }

  lemma ActivationIsAudited(s: Hub, id: Id)
    requires ReadyToCommit(s, id) && s.work.handshakes[id].plan.kind == Activation
    ensures HistoryStep(s, DoCommit(s, id))
  {
    var n := DoCommit(s, id);
    if n != s { assert Audited(s, n, s.work.handshakes[id].plan.device); }
  }

  lemma TabletIsAudited(s: Hub, id: Id)
    requires ReadyToCommit(s, id) && s.work.handshakes[id].plan.kind == TabletMove
    ensures HistoryStep(s, DoCommit(s, id))
  {
    var n := DoCommit(s, id);
    if n != s { assert Audited(s, n, s.work.handshakes[id].plan.device); }
  }

  lemma LaserIsAudited(s: Hub, id: Id)
    requires ReadyToCommit(s, id) && s.work.handshakes[id].plan.kind == LaserMove
    ensures HistoryStep(s, DoCommit(s, id))
  {
    var n := DoCommit(s, id);
    if n != s { assert Audited(s, n, s.work.handshakes[id].plan.device); }
  }

  lemma MigrationIsAudited(s: Hub, id: Id, device: Id, project: Id, actor: Id)
    ensures HistoryStep(s, DoMigrate(s, id, device, project, actor))
  {
    var n := DoMigrate(s, id, device, project, actor);
    if n != s { assert Audited(s, n, device); }
  }

  lemma HelloIsHistory(s: Hub, device: Id, project: Id, profile: Profile, kind: Kind)
    requires s.t.devices.Keys == s.t.assignments.Keys
    ensures HistoryStep(s, DoHello(s, device, UpsertV1(s.t, device, project, profile, kind)))
    ensures HistoryStep(s, DoHello(s, device, RegisterV2(s.t, device, profile, kind)))
  {
    var n := DoHello(s, device, UpsertV1(s.t, device, project, profile, kind));
    if device !in s.t.devices && n != s { assert Enrols(s, n, device); }
    var m := DoHello(s, device, RegisterV2(s.t, device, profile, kind));
    if device !in s.t.devices && m != s { assert Enrols(s, m, device); }
  }

  lemma LinkIsHistory(s: Hub, a: LinkStep)
    requires s.t.devices.Keys == s.t.assignments.Keys
    ensures HistoryStep(s, DoLink(s, a))
  {
    hide DoHello, UpsertV1, RegisterV2;
    match a {
      case HelloV1(device, project, profile, kind) => HelloIsHistory(s, device, project, profile, kind);
      case HelloV2(device, profile, kind) => HelloIsHistory(s, device, NO_ID, profile, kind);
      case _ => assert SameRows(s, DoLink(s, a));
    }
  }

  lemma HandshakeIsHistory(s: Hub, a: HandshakeStep)
    ensures HistoryStep(s, DoHandshake(s, a))
  {
    hide DoCommit, DoMigrate, AckMatches, Preflight, Live, HistoryStep;
    match a {
      case Commit(id) => CommitIsHistory(s, id);
      case Migrate(id, device, project, actor) => MigrationIsAudited(s, id, device, project, actor);
      case _ => OtherIsHistory(s, a);
    }
  }

  lemma OtherIsHistory(s: Hub, a: HandshakeStep)
    requires !a.Commit? && !a.Migrate?
    ensures HistoryStep(s, DoHandshake(s, a))
  {
    hide DoCommit, DoMigrate, AckMatches, Preflight, Live;
    assert SameRows(s, DoHandshake(s, a));
  }

  lemma StepIsHistory(s: Hub, a: Action)
    requires s.t.devices.Keys == s.t.assignments.Keys
    ensures HistoryStep(s, Apply(s, a))
  {
    hide HistoryStep, DoWorld, DoLink, DoDispatch, DoResult, DoScope, DoHandshake;
    if s.net.closing.Some? && NeedsLock(a) {
      SameIsHistory(s);
      return;
    }
    match a {
      case World(x) => WorldIsHistory(s, x);
      case Link(x) => LinkIsHistory(s, x);
      case Dispatching(x) => DispatchIsHistory(s, x);
      case Result(x) => ResultIsHistory(s, x);
      case Scoping(x) => ScopeIsHistory(s, x);
      case Handshaking(x) => HandshakeIsHistory(s, x);
    }
  }

  lemma SameIsHistory(s: Hub)
    ensures HistoryStep(s, s)
  {
    assert SameRows(s, s);
  }

  lemma WorldIsHistory(s: Hub, a: WorldStep)
    ensures HistoryStep(s, DoWorld(s, a))
  {
    assert SameRows(s, DoWorld(s, a));
  }

  lemma DispatchIsHistory(s: Hub, a: DispatchStep)
    ensures HistoryStep(s, DoDispatch(s, a))
  {
    hide DeviceMay, ScopeMay, StandsFor, Fresh, CanBind;
    assert SameRows(s, DoDispatch(s, a));
  }

  lemma ResultIsHistory(s: Hub, a: ResultStep)
    ensures HistoryStep(s, DoResult(s, a))
  {
    hide MayAnswer;
    assert SameRows(s, DoResult(s, a));
  }

  lemma ScopeIsHistory(s: Hub, a: ScopeStep)
    ensures HistoryStep(s, DoScope(s, a))
  {
    hide ScopeAuthoritative, ScopeReported;
    assert SameRows(s, DoScope(s, a));
  }
}
