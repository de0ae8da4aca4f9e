/** Commands are enabled on a socket only after the device has reported itself safe there, for the scope that
    they are enabled for. */
module SafeScopes {
  import opened StageTypes
  import opened AssignmentCommits
  import opened HubMachine
  import opened CommandFence
  import opened FenceTheorems
  import opened DeviceEvidence
  import opened Connections

  // ---------------------------------------------------------------- the report behind an enabled socket

  /** A lighting node is all dark, with the configuration that the published snapshot binds to it. */
  predicate LightingIsDark(e: Evidence)
    requires e.ScopeAck?
  {
    && e.report.blackout && Dark(e.report.levels) && 1 < e.scope.epoch
    && e.scope.snapshot in e.env.snapshots
    && var snapshot := e.env.snapshots[e.scope.snapshot];
    && snapshot.published && snapshot.project == e.scope.project
    && e.device in snapshot.lighting && snapshot.lighting[e.device] == e.report.config
  }

  /** A report of this socket generation and scope, by a device that may have commands and was safe. */
  predicate SafeReport(e: Evidence, device: Id, generation: int, scope: Scope) {
    && e.ScopeAck? && e.device == device && e.generation == generation && e.scope == scope
    && e.report.generation == generation && e.report.ready
    && e.row.enabled && e.row.protocol == V2 && e.row.project == NO_ID
    && match e.row.profile
       case LightingNode => LightingIsDark(e)
       case StageLaserProfile => e.row.kind == Generic && Still(e.report.observation)
       case TabletProfile => e.row.kind == TabletPlayer
       case OtherProfile(_) => false
  }

  ghost predicate IsReported(evidence: seq<Evidence>, device: Id, generation: int, scope: Scope) {
    exists i :: 0 <= i < |evidence| && SafeReport(evidence[i], device, generation, scope)
  }

  /** Behind every enabled v2 socket, and behind every scope about to be enabled, there is such a report. */
  ghost predicate ScopesReported(s: Hub) {
    && (forall k | k in s.net.sockets && s.net.sockets[k].v2 && s.net.sockets[k].enabled ::
          IsReported(s.trace.evidence, s.net.sockets[k].device, s.net.sockets[k].generation, s.net.sockets[k].scope))
    && (forall k | k in s.net.sockets && k in s.work.scopeReads ::
          IsReported(s.trace.evidence, s.net.sockets[k].device, s.net.sockets[k].generation, s.work.scopeReads[k]))
  }

  lemma ReportedGrows(e: seq<Evidence>, f: seq<Evidence>, device: Id, generation: int, scope: Scope)
    requires e <= f && IsReported(e, device, generation, scope)
    ensures IsReported(f, device, generation, scope)
  {
    hide SafeReport;
    var i :| 0 <= i < |e| && SafeReport(e[i], device, generation, scope);
    assert f[i] == e[i];
  }

  // ---------------------------------------------------------------- one step

  /** A scope is about to be enabled as before, or the device has just reported it. */
  ghost predicate ReadsGoOn(s: Hub, n: Hub, k: SocketId) {
    k in n.work.scopeReads ==>
      || (k in s.work.scopeReads && n.work.scopeReads[k] == s.work.scopeReads[k])
      || (k in s.net.sockets && IsReported(n.trace.evidence, s.net.sockets[k].device, s.net.sockets[k].generation,
                                         n.work.scopeReads[k]))
  }

  lemma ReadIsReported(s: Hub, j: SocketId, scope: Scope, report: ScopeReport, k: SocketId)
    ensures ReadsGoOn(s, DoReadScope(s, j, scope, report), k)
  {
    var n := DoReadScope(s, j, scope, report);
    if n != s && k == j {
      var e := n.trace.evidence[|s.trace.evidence|];
      assert SafeReport(e, s.net.sockets[k].device, s.net.sockets[k].generation, scope);
    }
  }

  lemma ReadsStay(s: Hub, a: Action, k: SocketId)
    ensures ReadsGoOn(s, Apply(s, a), k)
  {
    hide DoWorld, DoDispatch, DoResult, DoHandshake, DoReadScope, IsReported, NeedsLock, UpsertV1, RegisterV2,
         RecordAck;
    match a {
      case World(x) => WorldKeepsReads(s, x);
      case Link(x) =>
      case Dispatching(x) => DispatchStaysConnected(s, x);
      case Result(x) => ResultLeavesNet(s, x);
      case Scoping(x) => if x.ReadScope? { ReadIsReported(s, x.socket, x.scope, x.report, k); }
      case Handshaking(x) => HandshakeStaysConnected(s, x);
    }
  }

  lemma WorldKeepsReads(s: Hub, a: WorldStep)
    ensures DoWorld(s, a).work == s.work
  {
  }

  lemma NewSocketsWait(s: Hub, a: Action, k: SocketId)
    requires k !in s.net.sockets && k in Apply(s, a).net.sockets && FenceInv(s)
    ensures !Apply(s, a).net.sockets[k].enabled && k !in Apply(s, a).work.scopeReads
  {
    hide ScopesExact, BoundToScope, DoWorld, DoDispatch, DoResult, DoHandshake, DoScope, NeedsLock, UpsertV1,
         RegisterV2;
    NewSocketsConnect(s, a, k);
  }

  /** Sockets come from a hello only. */
  lemma NewSocketsConnect(s: Hub, a: Action, k: SocketId)
    requires k !in s.net.sockets && k in Apply(s, a).net.sockets
    ensures a.Link? && a.link.Register?
  {
    hide DoWorld, DoDispatch, DoResult, DoHandshake, DoScope, NeedsLock, UpsertV1, RegisterV2, Shut;
    match a {
      case World(x) => WorldLeavesNet(s, x);
      case Link(x) => LinkAddsSockets(s, x, k);
      case Dispatching(x) => DispatchStaysConnected(s, x);
      case Result(x) => ResultLeavesNet(s, x);
      case Scoping(x) => ScopeAddsNoSocket(s, x);
      case Handshaking(x) => HandshakeStaysConnected(s, x);
    }
  }

  lemma LinkAddsSockets(s: Hub, a: LinkStep, k: SocketId)
    requires k !in s.net.sockets && k in DoLink(s, a).net.sockets
    ensures a.Register?
  {
    hide UpsertV1, RegisterV2;
  }

  lemma ScopeAddsNoSocket(s: Hub, a: ScopeStep)
    ensures DoScope(s, a).net.sockets.Keys == s.net.sockets.Keys
  {
    hide ScopeAuthoritative, ScopeReported, RecordAck;
  }

  lemma StepReportsScopes(s: Hub, a: Action)
    requires FenceInv(s) && ScopesReported(s) && s.trace.evidence <= Apply(s, a).trace.evidence
    ensures ScopesReported(Apply(s, a))
  {
    hide Apply, FenceInv, IsReported;
    var n := Apply(s, a);
    forall k | k in n.net.sockets
      ensures n.net.sockets[k].v2 && n.net.sockets[k].enabled ==>
                IsReported(n.trace.evidence, n.net.sockets[k].device, n.net.sockets[k].generation,
                           n.net.sockets[k].scope)
      ensures k in n.work.scopeReads ==>
                IsReported(n.trace.evidence, n.net.sockets[k].device, n.net.sockets[k].generation, n.work.scopeReads[k])
    {
      if k in s.net.sockets { SocketStaysReported(s, a, k); } else { NewSocketsWait(s, a, k); }
    }
  }

  lemma SocketStaysReported(s: Hub, a: Action, k: SocketId)
    requires FenceInv(s) && ScopesReported(s) && s.trace.evidence <= Apply(s, a).trace.evidence
    requires k in s.net.sockets
    ensures var n := Apply(s, a);
            && k in n.net.sockets
            && (n.net.sockets[k].v2 && n.net.sockets[k].enabled ==>
                  IsReported(n.trace.evidence, n.net.sockets[k].device, n.net.sockets[k].generation,
                             n.net.sockets[k].scope))
            && (k in n.work.scopeReads ==>
                  IsReported(n.trace.evidence, n.net.sockets[k].device, n.net.sockets[k].generation,
                             n.work.scopeReads[k]))
  {
    hide Apply, FenceInv, IsReported, Closes;
    var n := Apply(s, a);
    SocketsGoOn(s, a, k);
    ReadsStay(s, a, k);
    var was := s.net.sockets[k];
    if was.v2 && was.enabled {
      ReportedGrows(s.trace.evidence, n.trace.evidence, was.device, was.generation, was.scope);
    }
    if k in s.work.scopeReads {
      ReportedGrows(s.trace.evidence, n.trace.evidence, was.device, was.generation, s.work.scopeReads[k]);
    }
  }

  lemma InitReportsScopes(env: Env, generation: int)
    ensures ScopesReported(Init(env, generation))
  {
  }

  /** After any run, behind every v2 socket that commands are enabled on stands a report of its own generation
      and scope, in which the device was safe: a lighting node all dark with the bound configuration, a
      StageLaser disarmed and off. */
  lemma {:induction false} EnabledMeansSafe(env: Env, generation: int, actions: seq<Action>)
    ensures ScopesReported(Run(Init(env, generation), actions))
  {
    hide FenceInv, Reported, ScopesReported, Apply, RowsBacked;
    var s := Init(env, generation);
    if actions == [] {
      InitReportsScopes(env, generation);
    } else {
      var before := actions[..|actions| - 1];
      var a := actions[|actions| - 1];
      EnabledMeansSafe(env, generation, before);
      EveryMoveHasEvidence(env, generation, before);
      InitKeepsFence(env, generation);
      RunKeepsFence(s, before);
      assert Run(s, before).trace.evidence <= Run(s, actions).trace.evidence by {
        StepReports(Run(s, before), a);
      }
      StepReportsScopes(Run(s, before), a);
    }
  }

  // ---------------------------------------------------------------- a safe report does enable

  /** The stored row is ACTIVE with this scope, the device is one that may have commands, and its report on
      this socket says that it is ready and safe. */
  ghost predicate Acceptable(s: Hub, k: SocketId, scope: Scope, report: ScopeReport)
    requires k in s.net.sockets
  {
    var device := s.net.sockets[k].device;
    && device in s.t.devices && device in s.t.assignments
    && SafeReport(ScopeAck(device, s.net.sockets[k].generation, scope, report, s.t.devices[device], s.t.env), device,
                  s.net.sockets[k].generation, scope)
    && scope.project != NO_ID && scope.snapshot != NO_ID && 0 < scope.epoch
    && s.t.assignments[device] == Assignment(Active, scope.project, scope.snapshot, scope.epoch)
  }

  lemma ReadAccepts(s: Hub, k: SocketId, scope: Scope, report: ScopeReport)
    requires k in s.net.sockets && s.net.sockets[k].v2 && k !in s.work.scopeReads
    ensures var n := DoReadScope(s, k, scope, report);
            && n.net == s.net
            && if Acceptable(s, k, scope, report) then n.work.scopeReads == s.work.scopeReads[k := scope] else n == s
  {
  }

  /** A scope acknowledgment on a socket that is not enabled yet enables commands if and only if it is
      acceptable, and the socket is live and behind no transition. */
  lemma SafeReportEnables(s: Hub, k: SocketId, scope: Scope, report: ScopeReport)
    requires k in s.net.sockets && s.net.sockets[k].v2 && !s.net.sockets[k].enabled
    requires k !in s.work.scopeReads && s.net.closing.None?
    ensures var n := Run(s, [Scoping(ReadScope(k, scope, report)), Scoping(EnableScope(k))]);
            var device := s.net.sockets[k].device;
            && k in n.net.sockets
            && (n.net.sockets[k].enabled <==>
                && Acceptable(s, k, scope, report)
                && !s.net.stopped && device in s.net.current && s.net.current[device] == k && s.net.sockets[k].open
                && device !in s.net.transitions)
            && (n.net.sockets[k].enabled ==> n.net.sockets[k].scope == scope)
  {
    hide Run, Acceptable, DoReadScope;
    RunTwo(s, Scoping(ReadScope(k, scope, report)), Scoping(EnableScope(k)));
    ReadAccepts(s, k, scope, report);
  }
}
