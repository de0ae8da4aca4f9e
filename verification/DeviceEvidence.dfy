/** What stands behind an audited move: the device's own safe answer, given on the socket generation
    that the audit row names; and how generations separate an activation from later commands. */
module DeviceEvidence {
  import opened StageTypes
  import opened AssignmentCommits
  import opened HubMachine
  import opened CommandFence
  import opened FenceTheorems

  /** All twelve channels at zero. */
  predicate Dark(levels: seq<int>) {
    |levels| == 12 && forall i | 0 <= i < |levels| :: levels[i] == 0
  }

  /** A StageLaser that is disarmed and off, and known to be. */
  predicate Still(o: LaserObservation) {
    && o.valid && o.contractMatches && o.disarmed && o.off && !o.resync && !o.pulse && !o.flash
    && (o.quality == Tracked || o.quality == Confirmed)
  }

  /** The socket of this generation reported all channels at zero for this Project and epoch. */
  ghost predicate EpochEvidence(e: seq<Evidence>, device: Id, project: Id, epoch: int, generation: int) {
    exists levels :: EpochReport(device, project, epoch, generation, levels) in e && Dark(levels)
  }

  ghost predicate AnswerEvidence(e: seq<Evidence>, kind: HandshakeKind, device: Id, generation: int, ack: Ack) {
    && HandshakeReport(kind, device, generation, ack) in e
    && ack.device == device && ack.generation == generation
  }

  ghost predicate RowEvidence(e: seq<Evidence>, r: Audit) {
    match r
    case TransferAudit(id, device, _, _, _, _, epoch, _, generation, digest, _) =>
      exists ack :: AnswerEvidence(e, Blackout, device, generation, ack) && ack.id == id && ack.epoch == epoch &&
        Sha256(ack.challenge) == digest && ack.safe && Dark(ack.levels)
    case ActivationAudit(id, device, _, project, snapshot, epoch, generation, digest, config) =>
      && EpochEvidence(e, device, project, epoch, generation)
      && exists ack :: AnswerEvidence(e, Activation, device, generation, ack) && ack.id == id && ack.epoch == epoch &&
           Sha256(ack.challenge) == digest && ack.safe && Dark(ack.levels) && ack.project == project &&
           ack.snapshot == snapshot && ack.config == config
    case TabletAudit(id, device, _, _, _, _, _, epoch, _, generation, digest, _) =>
      exists ack :: AnswerEvidence(e, TabletMove, device, generation, ack) && ack.id == id && ack.epoch == epoch &&
        Sha256(ack.challenge) == digest && ack.safe
    case LaserAudit(id, device, _, _, _, epoch, _, generation, digest, quality) =>
      exists ack :: AnswerEvidence(e, LaserMove, device, generation, ack) && ack.id == id && ack.epoch == epoch &&
        Sha256(ack.challenge) == digest && Still(ack.observation) && ack.observation.quality == quality
    case MigrationAudit(_, _, _, _, _, _) => true
  }

  lemma EvidenceGrows(e: seq<Evidence>, f: seq<Evidence>, r: Audit)
    requires e <= f && RowEvidence(e, r)
    ensures RowEvidence(f, r)
  {
    assert forall x | x in e :: x in f;
    match r {
      case TransferAudit(id, device, _, _, _, _, epoch, _, generation, digest, _) =>
        var ack :| AnswerEvidence(e, Blackout, device, generation, ack) && ack.id == id && ack.epoch == epoch &&
          Sha256(ack.challenge) == digest && ack.safe && Dark(ack.levels);
        assert AnswerEvidence(f, Blackout, device, generation, ack);
      case ActivationAudit(id, device, _, project, snapshot, epoch, generation, digest, config) =>
        var ack :| AnswerEvidence(e, Activation, device, generation, ack) && ack.id == id && ack.epoch == epoch &&
          Sha256(ack.challenge) == digest && ack.safe && Dark(ack.levels) && ack.project == project &&
          ack.snapshot == snapshot && ack.config == config;
        assert AnswerEvidence(f, Activation, device, generation, ack);
      case TabletAudit(id, device, _, _, _, _, _, epoch, _, generation, digest, _) =>
        var ack :| AnswerEvidence(e, TabletMove, device, generation, ack) && ack.id == id && ack.epoch == epoch &&
          Sha256(ack.challenge) == digest && ack.safe;
        assert AnswerEvidence(f, TabletMove, device, generation, ack);
      case LaserAudit(id, device, _, _, _, epoch, _, generation, digest, quality) =>
        var ack :| AnswerEvidence(e, LaserMove, device, generation, ack) && ack.id == id && ack.epoch == epoch &&
          Sha256(ack.challenge) == digest && Still(ack.observation) && ack.observation.quality == quality;
        assert AnswerEvidence(f, LaserMove, device, generation, ack);
      case MigrationAudit(_, _, _, _, _, _) =>
    }
  }

  // ---------------------------------------------------------------- acknowledgments and handshakes

  ghost predicate AcksReported(s: Hub) {
    forall k | k in s.t.acks :: EpochEvidence(s.trace.evidence, k.device, s.t.acks[k].project, k.epoch,
                                              s.t.acks[k].generation)
  }

  /** A fenced handshake belongs to its device's socket and generation; its answer was reported
      there; an activation plan was made on an epoch acknowledgment for the same Project. */
  ghost predicate HandshakeHolds(s: Hub, h: Handshake) {
    && (h.phase == Fenced ==>
          h.socket in s.net.sockets && s.net.sockets[h.socket].device == h.plan.device &&
          s.net.sockets[h.socket].generation == h.generation)
    && (h.ack.Some? ==> HandshakeReport(h.plan.kind, h.plan.device, h.generation, h.ack.value) in s.trace.evidence)
    && (h.plan.kind == Activation && h.config.Some? ==>
          var key := EpochKey(h.plan.device, h.plan.epoch);
          key in s.t.acks && s.t.acks[key].project == h.plan.toProject)
  }

  ghost predicate Reported(s: Hub) {
    && AcksReported(s)
    && (forall id | id in s.work.handshakes :: HandshakeHolds(s, s.work.handshakes[id]))
  }

  /** Evidence only grows, an acknowledged Project stays, sockets keep their identity. */
  ghost predicate Grows(s: Hub, n: Hub) {
    && s.trace.evidence <= n.trace.evidence
    && (forall k | k in s.t.acks :: k in n.t.acks && n.t.acks[k].project == s.t.acks[k].project)
    && (forall k | k in s.net.sockets :: k in n.net.sockets && n.net.sockets[k].device == s.net.sockets[k].device &&
          n.net.sockets[k].generation == s.net.sockets[k].generation && n.net.sockets[k].v2 == s.net.sockets[k].v2)
  }

  /** Acknowledgments and handshakes only change by steps that keep their evidence. */
  ghost predicate ReportStep(s: Hub, n: Hub) {
    && Grows(s, n)
    && (forall k | k in n.t.acks :: (k in s.t.acks && n.t.acks[k] == s.t.acks[k]) ||
          EpochEvidence(n.trace.evidence, k.device, n.t.acks[k].project, k.epoch, n.t.acks[k].generation))
    && (forall id | id in n.work.handshakes ::
          (id in s.work.handshakes && n.work.handshakes[id] == s.work.handshakes[id]) ||
          HandshakeHolds(n, n.work.handshakes[id]))
  }

  lemma ReportStepKeeps(s: Hub, n: Hub)
    requires Reported(s) && ReportStep(s, n)
    ensures Reported(n)
  {
    assert forall x | x in s.trace.evidence :: x in n.trace.evidence;
    forall k | k in n.t.acks
      ensures EpochEvidence(n.trace.evidence, k.device, n.t.acks[k].project, k.epoch, n.t.acks[k].generation)
    {
      if k in s.t.acks && n.t.acks[k] == s.t.acks[k] {
        var ack := s.t.acks[k];
        var levels :| EpochReport(k.device, ack.project, k.epoch, ack.generation, levels) in s.trace.evidence &&
            Dark(levels);
      }
    }
    forall id | id in n.work.handshakes ensures HandshakeHolds(n, n.work.handshakes[id]) {
      if id in s.work.handshakes && n.work.handshakes[id] == s.work.handshakes[id] {
        assert HandshakeHolds(s, s.work.handshakes[id]);
      }
    }
  }

  lemma AckEpochReports(s: Hub, k: SocketId, project: Id, epoch: int, generation: int, blackout: bool, levels: seq<int>)
    requires FenceInv(s) && Reported(s)
    ensures ReportStep(s, DoAckEpoch(s, k, project, epoch, generation, blackout, levels))
  {
    hide FenceInv, Reported, HandshakeHolds;
    var n := DoAckEpoch(s, k, project, epoch, generation, blackout, levels);
    if n.trace != s.trace {
      var device := s.net.sockets[k].device;
      assert EpochReport(device, project, epoch, generation, levels) in n.trace.evidence && Dark(levels);
    }
  }

  lemma LinkReports(s: Hub, a: LinkStep)
    requires FenceInv(s) && Reported(s)
    ensures ReportStep(s, DoLink(s, a))
  {
    hide Reported, FenceInv;
  }

  lemma DeliverReports(s: Hub, k: SocketId, kind: HandshakeKind, ack: Ack)
    requires FenceInv(s) && Reported(s)
    ensures ReportStep(s, DoDeliver(s, k, kind, ack))
  {
    hide FenceInv;
    var n := DoDeliver(s, k, kind, ack);
    if Answers(s, k, kind, ack.id) {
      assert HandshakeHolds(s, s.work.handshakes[ack.id]);
      assert n.trace.evidence[|s.trace.evidence|] ==
             HandshakeReport(kind, s.net.sockets[k].device, s.net.sockets[k].generation, ack);
      assert HandshakeHolds(n, n.work.handshakes[ack.id]);
    }
  }

  lemma FenceReports(s: Hub, id: Id, plan: Plan)
    requires FenceInv(s) && Reported(s)
    ensures ReportStep(s, DoFence(s, id, plan))
  {
    hide NoPending, Excluded;
    var n := DoFence(s, id, plan);
    if id in s.work.handshakes { assert HandshakeHolds(s, s.work.handshakes[id]); }
    assert forall x | x in s.trace.evidence :: x in n.trace.evidence;
  }

  lemma RecheckReports(s: Hub, id: Id)
    requires FenceInv(s) && Reported(s)
    ensures ReportStep(s, DoRecheck(s, id))
  {
    hide FenceInv;
    if id in s.work.handshakes { assert HandshakeHolds(s, s.work.handshakes[id]); }
  }

  lemma CommitLeavesAcks(t: Tables, id: Id, h: Handshake)
    requires AckMatches(id, h) && CommitTables(t, id, h).Some?
    ensures CommitTables(t, id, h).value.acks == t.acks
  {
  }

  lemma CommitReports(s: Hub, id: Id)
    requires FenceInv(s) && Reported(s)
    ensures ReportStep(s, DoCommit(s, id))
  {
    hide FenceInv, CommitTables, AckMatches, Live;
    if id in s.work.handshakes { assert HandshakeHolds(s, s.work.handshakes[id]); }
    if ReadyToCommit(s, id) && CommitTables(s.t, id, s.work.handshakes[id]).Some? {
      CommitLeavesAcks(s.t, id, s.work.handshakes[id]);
    }
  }

  lemma OtherRequestReports(s: Hub, a: HandshakeStep)
    requires FenceInv(s) && Reported(s)
    requires a.Reserve? || a.CancelReservation? || a.Verify? || a.Finish? || a.Migrate? || a.CloseCommitted?
    ensures ReportStep(s, DoHandshake(s, a))
  {
    hide FenceInv, ExpireStale, AckMatches, DoCommit, DoFence, DoRecheck, DoDeliver, Live;
    if a.Verify? && a.id in s.work.handshakes { assert HandshakeHolds(s, s.work.handshakes[a.id]); }
  }

  lemma HandshakeReports(s: Hub, a: HandshakeStep)
    requires FenceInv(s) && Reported(s)
    ensures ReportStep(s, DoHandshake(s, a))
  {
    hide DoReserve, DoCancel, DoFence, DoRecheck, DoDeliver, DoVerify, DoCommit, DoFinish, DoMigrate, ReportStep,
         FenceInv, Reported;
    match a {
      case Commit(id) => CommitReports(s, id);
      case Fence(id, plan) => FenceReports(s, id, plan);
      case Recheck(id) => RecheckReports(s, id);
      case DeliverAck(k, kind, ack) => DeliverReports(s, k, kind, ack);
      case _ => OtherRequestReports(s, a);
    }
  }

  lemma StepReports(s: Hub, a: Action)
    requires FenceInv(s) && Reported(s)
    ensures ReportStep(s, Apply(s, a))
  {
    hide FenceInv, Reported, ReportStep, DoWorld, DoLink, DoDispatch, DoResult, DoScope, DoHandshake;
    if s.net.closing.Some? && NeedsLock(a) {
      UnreportedIsStep(s, s);
      return;
    }
    match a {
      case World(x) => WorldReports(s, x);
      case Link(x) => LinkReports(s, x);
      case Dispatching(x) => DispatchReports(s, x);
      case Result(x) => ResultReports(s, x);
      case Scoping(x) => ScopeReports(s, x);
      case Handshaking(x) => HandshakeReports(s, x);
    }
  }

  /** No acknowledgment, handshake or report changes; a socket may close. */
  ghost predicate Unreported(s: Hub, n: Hub) {
    && n.t.acks == s.t.acks && n.work.handshakes == s.work.handshakes && n.trace.evidence == s.trace.evidence
    && (forall k | k in s.net.sockets :: k in n.net.sockets && n.net.sockets[k].device == s.net.sockets[k].device &&
          n.net.sockets[k].generation == s.net.sockets[k].generation && n.net.sockets[k].v2 == s.net.sockets[k].v2)
  }

  lemma UnreportedIsStep(s: Hub, n: Hub)
    requires Unreported(s, n)
    ensures ReportStep(s, n)
  {
    hide HandshakeHolds;
  }

  lemma WorldReports(s: Hub, a: WorldStep)
    ensures ReportStep(s, DoWorld(s, a))
  {
    hide ReportStep;
    UnreportedIsStep(s, DoWorld(s, a));
  }

  lemma ResultReports(s: Hub, a: ResultStep)
    ensures ReportStep(s, DoResult(s, a))
  {
    hide ReportStep;
    UnreportedIsStep(s, DoResult(s, a));
  }

  lemma DispatchReports(s: Hub, a: DispatchStep)
    ensures ReportStep(s, DoDispatch(s, a))
  {
    hide ReportStep, Unreported;
    if OnlyReads(a) {
      ReadsReportNothing(s, a);
    } else if a.Bind? || a.Send? {
      SendReportsNothing(s, a);
    } else {
      WritesReportNothing(s, a);
    }
    UnreportedIsStep(s, DoDispatch(s, a));
  }

  lemma StagesReportNothing(s: Hub, c: Id, d: Dispatch)
    ensures Unreported(s, SetDispatch(s, c, d)) && Unreported(s, EndDispatch(s, c))
  {
  }

  lemma CheckReportsNothing(s: Hub, c: Id)
    ensures Unreported(s, DoCheck(s, c))
  {
    hide ScopeMay, SetDispatch, EndDispatch;
    if c in s.work.dispatches { StagesReportNothing(s, c, s.work.dispatches[c].(stage := Checked)); }
  }

  lemma ReadsReportNothing(s: Hub, a: DispatchStep)
    requires OnlyReads(a)
    ensures Unreported(s, DoDispatch(s, a))
  {
    hide DeviceMay, StandsFor, Fresh, DoCheck, DoStore, DoAbort, DoBind, DoSend, DoFail;
    if a.Check? { CheckReportsNothing(s, a.command); }
  }

  lemma WritesReportNothing(s: Hub, a: DispatchStep)
    requires a.Store? || a.Abort? || a.GiveUp?
    ensures Unreported(s, DoDispatch(s, a))
  {
    hide DoAsk, DoCheck, DoFind, DoDuplicate, DoBind, DoSend;
  }

  lemma SendReportsNothing(s: Hub, a: DispatchStep)
    requires a.Bind? || a.Send?
    ensures Unreported(s, DoDispatch(s, a))
  {
    hide DoAsk, DoCheck, DoFind, DoDuplicate, DoStore, DoAbort, DoFail, CanBind, FrameOf;
  }

  lemma ScopeReports(s: Hub, a: ScopeStep)
    requires FenceInv(s) && Reported(s)
    ensures ReportStep(s, DoScope(s, a))
  {
    hide ScopeAuthoritative, ScopeReported, DoAckEpoch;
    match a {
      case AckEpoch(k, project, epoch, generation, blackout, levels) =>
        AckEpochReports(s, k, project, epoch, generation, blackout, levels);
      case _ =>
    }
  }

  // ---------------------------------------------------------------- audit rows

  /** At most one row is appended, and it has its evidence. */
  ghost predicate BackedStep(s: Hub, n: Hub) {
    || n.t.log == s.t.log
    || (|n.t.log| == |s.t.log| + 1 && n.t.log[..|s.t.log|] == s.t.log &&
        RowEvidence(n.trace.evidence, n.t.log[|s.t.log|]))
  }

  lemma TransferBacked(s: Hub, id: Id)
    requires FenceInv(s) && Reported(s) && ReadyToCommit(s, id) && s.work.handshakes[id].plan.kind == Blackout
    ensures BackedStep(s, DoCommit(s, id))
  {
    var h := s.work.handshakes[id];
    assert HandshakeHolds(s, h);
    var n := DoCommit(s, id);
    if n.t.log != s.t.log {
      assert AnswerEvidence(n.trace.evidence, Blackout, h.plan.device, h.generation, h.ack.value);
    }
  }

  lemma ActivationBacked(s: Hub, id: Id)
    requires FenceInv(s) && Reported(s) && ReadyToCommit(s, id) && s.work.handshakes[id].plan.kind == Activation
    ensures BackedStep(s, DoCommit(s, id))
  {
    var h := s.work.handshakes[id];
    assert HandshakeHolds(s, h);
    var n := DoCommit(s, id);
    if n.t.log != s.t.log {
      assert AnswerEvidence(n.trace.evidence, Activation, h.plan.device, h.generation, h.ack.value);
      var key := EpochKey(h.plan.device, h.plan.epoch);
      assert EpochEvidence(s.trace.evidence, key.device, s.t.acks[key].project, key.epoch, s.t.acks[key].generation);
    }
  }

  lemma TabletBacked(s: Hub, id: Id)
    requires FenceInv(s) && Reported(s) && ReadyToCommit(s, id) && s.work.handshakes[id].plan.kind == TabletMove
    ensures BackedStep(s, DoCommit(s, id))
  {
    var h := s.work.handshakes[id];
    assert HandshakeHolds(s, h);
    var n := DoCommit(s, id);
    if n.t.log != s.t.log {
      assert AnswerEvidence(n.trace.evidence, TabletMove, h.plan.device, h.generation, h.ack.value);
    }
  }

  lemma LaserBacked(s: Hub, id: Id)
    requires FenceInv(s) && Reported(s) && ReadyToCommit(s, id) && s.work.handshakes[id].plan.kind == LaserMove
    ensures BackedStep(s, DoCommit(s, id))
  {
    var h := s.work.handshakes[id];
    assert HandshakeHolds(s, h);
    var n := DoCommit(s, id);
    if n.t.log != s.t.log {
      assert AnswerEvidence(n.trace.evidence, LaserMove, h.plan.device, h.generation, h.ack.value);
    }
  }

  lemma HandshakeBacked(s: Hub, a: HandshakeStep)
    requires FenceInv(s) && Reported(s)
    ensures BackedStep(s, DoHandshake(s, a))
  {
    hide FenceInv, Reported, RowEvidence, AckMatches, Preflight, Live, ExpireStale, CommitTables;
    if a.Commit? && ReadyToCommit(s, a.id) {
      match s.work.handshakes[a.id].plan.kind {
        case Blackout => TransferBacked(s, a.id);
        case Activation => ActivationBacked(s, a.id);
        case TabletMove => TabletBacked(s, a.id);
        case LaserMove => LaserBacked(s, a.id);
      }
    } else if a.Migrate? {
      MigrationBacked(s, a.id, a.device, a.project, a.actor);
    }
  }

  lemma MigrationBacked(s: Hub, id: Id, device: Id, project: Id, actor: Id)
    ensures BackedStep(s, DoMigrate(s, id, device, project, actor))
  {
  }

  lemma LinkAuditsNothing(s: Hub, a: LinkStep)
    ensures DoLink(s, a).t.log == s.t.log
  {
  }

  lemma StepBacked(s: Hub, a: Action)
    requires FenceInv(s) && Reported(s)
    ensures BackedStep(s, Apply(s, a))
  {
    hide FenceInv, Reported, RowEvidence, DoHandshake, DoLink, DoDispatch, DoWorld, DoResult, DoScope, NeedsLock;
    match a {
      case Handshaking(x) => HandshakeBacked(s, x);
      case Link(x) => LinkAuditsNothing(s, x);
      case _ => InnerLeavesMoves(s, a);
    }
  }

  ghost predicate RowsBacked(s: Hub) {
    forall i | 0 <= i < |s.t.log| :: RowEvidence(s.trace.evidence, s.t.log[i])
  }

  lemma BackedStepKeeps(s: Hub, n: Hub)
    requires RowsBacked(s) && BackedStep(s, n) && s.trace.evidence <= n.trace.evidence
    ensures RowsBacked(n)
  {
    hide RowEvidence;
    forall i | 0 <= i < |n.t.log| ensures RowEvidence(n.trace.evidence, n.t.log[i]) {
      if i < |s.t.log| { EvidenceGrows(s.trace.evidence, n.trace.evidence, s.t.log[i]); }
    }
  }

  lemma InitReported(env: Env, generation: int)
    ensures Reported(Init(env, generation)) && RowsBacked(Init(env, generation))
  {
  }

  /** After any run, every audited move except a migration rests on the device's own safe answer to
      that very request, given on the socket generation named in the row; an activation rests on an
      all-zero epoch acknowledgment of the same generation as well. */
  lemma {:induction false} EveryMoveHasEvidence(env: Env, generation: int, actions: seq<Action>)
    ensures Reported(Run(Init(env, generation), actions)) && RowsBacked(Run(Init(env, generation), actions))
  {
    hide FenceInv, Reported, RowsBacked, Apply, BackedStep;
    var s := Init(env, generation);
    if actions == [] {
      InitReported(env, generation);
    } else {
      var before := actions[..|actions| - 1];
      var a := actions[|actions| - 1];
      EveryMoveHasEvidence(env, generation, before);
      InitKeepsFence(env, generation);
      RunKeepsFence(s, before);
      StepReports(Run(s, before), a);
      ReportStepKeeps(Run(s, before), Run(s, actions));
      StepBacked(Run(s, before), a);
      BackedStepKeeps(Run(s, before), Run(s, actions));
    }
  }

  /** An all-dark report of the current socket's own generation is recorded for the Project and epoch it names,
      unless another Project has that epoch; any other report leaves the acknowledgments as they are. */
  lemma EpochReportCounts(s: Hub, k: SocketId, project: Id, epoch: int, generation: int, blackout: bool,
                          levels: seq<int>)
    requires k in s.net.sockets && s.net.sockets[k].device != NO_ID && s.net.closing.None?
    ensures var n := Apply(s, Scoping(AckEpoch(k, project, epoch, generation, blackout, levels)));
            var device := s.net.sockets[k].device;
            var key := EpochKey(device, epoch);
            if !s.net.stopped && device in s.net.current && s.net.current[device] == k && s.net.sockets[k].open &&
               s.net.sockets[k].v2 && generation == s.net.sockets[k].generation && 1 <= generation && 1 < epoch &&
               project != NO_ID && blackout && Dark(levels) && (key in s.t.acks ==> s.t.acks[key].project == project)
            then n.t.acks == s.t.acks[key := EpochAck(project, generation,
                                                      if key in s.t.acks then s.t.acks[key].channels else 12)]
            else n.t.acks == s.t.acks
  {
  }
}
