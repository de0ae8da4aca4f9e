/** Connection generations: every audited move forces a reconnect, and commands for the epoch it led
    to are enabled only on a socket of strictly greater generation. */
module Generations {
  import opened StageTypes
  import opened AssignmentCommits
  import opened HubMachine
  import opened CommandFence
  import opened FenceTheorems
  import opened AssignmentHistory

  /** The socket generation an audit row names; a migration has none. */
  function GenerationOf(r: Audit): int {
    match r
    case TransferAudit(_, _, _, _, _, _, _, _, generation, _, _) => generation
    case ActivationAudit(_, _, _, _, _, _, generation, _, _) => generation
    case TabletAudit(_, _, _, _, _, _, _, _, _, generation, _, _) => generation
    case LaserAudit(_, _, _, _, _, _, _, generation, _, _) => generation
    case MigrationAudit(_, _, _, _, _, _) => 0
  }

  /** The device's open v2 socket, which no commit is about to close. */
  ghost predicate LiveV2(s: Hub, k: SocketId) {
    Settled(s, k) && s.net.sockets[k].v2
  }

  ghost predicate EnabledV2(s: Hub, k: SocketId) {
    k in s.net.sockets && s.net.sockets[k].v2 && s.net.sockets[k].enabled
  }

  ghost predicate Counted(s: Hub) {
    && 0 <= s.t.generation
    && (forall k | k in s.net.sockets && s.net.sockets[k].v2 :: 1 <= s.net.sockets[k].generation <= s.t.generation)
  }

  /** A device's open current v2 socket is newer than every move in its log. */
  ghost predicate Reconnected(s: Hub) {
    forall i | 0 <= i < |s.t.log| ::
      && GenerationOf(s.t.log[i]) <= s.t.generation
      && (forall k | LiveV2(s, k) && s.net.sockets[k].device == s.t.log[i].device ::
            GenerationOf(s.t.log[i]) < s.net.sockets[k].generation)
  }

  ghost predicate NotAhead(s: Hub, k: SocketId) {
    && k in s.net.sockets && s.net.sockets[k].device in s.t.assignments
    && var a := s.t.assignments[s.net.sockets[k].device];
    && s.net.sockets[k].scope.epoch <= a.epoch
    && (s.net.sockets[k].scope.epoch == a.epoch ==> a.state == Active)
  }

  ghost predicate Separated(s: Hub) {
    forall k | EnabledV2(s, k) ::
      && NotAhead(s, k)
      && (forall i | 0 <= i < |s.t.log| && s.t.log[i].device == s.net.sockets[k].device &&
                     EpochsOf(s.t.log[i]).1 == s.net.sockets[k].scope.epoch ::
            GenerationOf(s.t.log[i]) < s.net.sockets[k].generation)
  }

  ghost predicate GenInv(s: Hub) {
    Counted(s) && Reconnected(s) && Separated(s)
  }

  // ---------------------------------------------------------------- one step

  ghost predicate SocketKept(s: Hub, n: Hub, k: SocketId)
    requires k in s.net.sockets
  {
    && k in n.net.sockets
    && var a := s.net.sockets[k];
    && var b := n.net.sockets[k];
    && b.device == a.device && b.v2 == a.v2 && b.generation == a.generation && (b.open ==> a.open)
    && ((b.enabled == a.enabled && b.scope == a.scope) ||
        (Settled(s, k) && Exact(s.t, a.device, b.scope) && n.t == s.t && n.net.current == s.net.current))
  }

  ghost predicate SocketsKept(s: Hub, n: Hub) {
    && s.t.generation <= n.t.generation
    && (forall k | k in s.net.sockets :: SocketKept(s, n, k))
    && (forall k | k in n.net.sockets && s.net.closing == Some(k) && n.net.sockets[k].open :: n.net.closing == Some(k))
    && (forall k | k in n.net.sockets && k !in s.net.sockets ::
          !n.net.sockets[k].enabled &&
          (n.net.sockets[k].v2 ==> s.t.generation < n.net.sockets[k].generation <= n.t.generation))
    && (forall d | d in n.net.current ::
          (d in s.net.current && n.net.current[d] == s.net.current[d]) || n.net.current[d] !in s.net.sockets)
  }

  /** A new audit row names a known generation and leaves its device without an open v2 socket, but for the
      one about to be closed. */
  ghost predicate MoveCloses(s: Hub, n: Hub) {
    || n.t.log == s.t.log
    || (|n.t.log| == |s.t.log| + 1 && n.t.log[..|s.t.log|] == s.t.log &&
        var r := n.t.log[|s.t.log|];
        GenerationOf(r) <= s.t.generation &&
        (r.MigrationAudit? || (forall k | LiveV2(n, k) :: n.net.sockets[k].device != r.device)))
  }

  lemma StepKeepsGenerations(s: Hub, n: Hub)
    requires GenInv(s) && WiredSockets(s) && WiredSockets(n)
    requires SocketsKept(s, n) && MoveCloses(s, n) && HistoryStep(s, n)
    ensures GenInv(n)
  {
    hide ReplayRow, EpochsOf, GenerationOf;
    assert Counted(n);
    LiveStaysNewer(s, n);
    forall k | EnabledV2(n, k)
      ensures NotAhead(n, k)
      ensures forall i | 0 <= i < |n.t.log| && n.t.log[i].device == n.net.sockets[k].device &&
                         EpochsOf(n.t.log[i]).1 == n.net.sockets[k].scope.epoch ::
                GenerationOf(n.t.log[i]) < n.net.sockets[k].generation
    {
      assert SocketKept(s, n, k);
      EnabledStaysBehind(s, n, k);
    }
  }

  lemma LiveStaysNewer(s: Hub, n: Hub)
    requires Counted(s) && Reconnected(s) && WiredSockets(s) && WiredSockets(n)
    requires SocketsKept(s, n) && MoveCloses(s, n)
    ensures Reconnected(n)
  {
    forall i, k | 0 <= i < |n.t.log| && LiveV2(n, k) && n.net.sockets[k].device == n.t.log[i].device
      ensures GenerationOf(n.t.log[i]) < n.net.sockets[k].generation
    {
      if k in s.net.sockets {
        assert SocketKept(s, n, k);
        assert LiveV2(s, k);
      }
    }
  }

  lemma EnabledStaysBehind(s: Hub, n: Hub, k: SocketId)
    requires GenInv(s) && WiredSockets(s) && SocketsKept(s, n) && MoveCloses(s, n) && HistoryStep(s, n)
    requires EnabledV2(n, k) && k in s.net.sockets && SocketKept(s, n, k)
    ensures NotAhead(n, k)
    ensures forall i | 0 <= i < |n.t.log| && n.t.log[i].device == n.net.sockets[k].device &&
                       EpochsOf(n.t.log[i]).1 == n.net.sockets[k].scope.epoch ::
              GenerationOf(n.t.log[i]) < n.net.sockets[k].generation
  {
    if n.net.sockets[k].enabled == s.net.sockets[k].enabled && n.net.sockets[k].scope == s.net.sockets[k].scope {
      assert EnabledV2(s, k) && NotAhead(s, k);
    } else {
      assert LiveV2(s, k);
    }
  }

  // ---------------------------------------------------------------- every action takes such a step

  lemma LinkKeepsSockets(s: Hub, a: LinkStep)
    ensures SocketsKept(s, DoLink(s, a))
  {
    hide Exact, ReconnectLegal;
  }

  lemma LinkClosesMoves(s: Hub, a: LinkStep)
    ensures MoveCloses(s, DoLink(s, a))
  {
    hide LiveV2;
  }

  lemma DispatchKeepsEverySocket(s: Hub, a: DispatchStep)
    ensures SocketsKept(s, DoDispatch(s, a))
  {
    hide Exact, DeviceMay, ScopeMay, StandsFor, Fresh, CanBind, Settled;
  }

  lemma DispatchKeepsSockets(s: Hub, a: DispatchStep)
    ensures SocketsKept(s, DoDispatch(s, a)) && MoveCloses(s, DoDispatch(s, a))
  {
    hide SocketsKept, DoDispatch, LiveV2;
    DispatchKeepsEverySocket(s, a);
    DispatchLeavesMoves(s, a);
  }

  lemma WorldKeepsSockets(s: Hub, a: WorldStep)
    ensures SocketsKept(s, DoWorld(s, a)) && MoveCloses(s, DoWorld(s, a))
  {
    hide Exact, LiveV2;
  }

  lemma ResultKeepsSockets(s: Hub, a: ResultStep)
    ensures SocketsKept(s, DoResult(s, a)) && MoveCloses(s, DoResult(s, a))
  {
    hide Exact, LiveV2;
  }

  lemma EnableKeepsSockets(s: Hub, k: SocketId)
    requires FenceInv(s) && s.net.closing.None?
    ensures SocketsKept(s, DoEnable(s, k))
  {
  }

  lemma ScopeKeepsSockets(s: Hub, a: ScopeStep)
    requires FenceInv(s) && (a.EnableScope? ==> s.net.closing.None?)
    ensures SocketsKept(s, DoScope(s, a)) && MoveCloses(s, DoScope(s, a))
  {
    hide FenceInv, Exact, LiveV2, ScopeAuthoritative, ScopeReported, DoEnable;
    match a {
      case EnableScope(k) =>
        EnableKeepsSockets(s, k);
        EnableMovesNothing(s, k);
      case _ =>
    }
  }

  lemma EnableMovesNothing(s: Hub, k: SocketId)
    ensures DoEnable(s, k).t == s.t
  {
  }

  lemma CommitKeepsSockets(s: Hub, id: Id)
    requires FenceInv(s) && Counted(s) && s.net.closing.None?
    ensures SocketsKept(s, DoCommit(s, id)) && MoveCloses(s, DoCommit(s, id))
  {
    hide Exact, LightingConfig, HasPendingCommand, ReservationMatches;
    if ReadyToCommit(s, id) && CommitTables(s.t, id, s.work.handshakes[id]).Some? {
      CommitMovesOneRow(s.t, id, s.work.handshakes[id]);
      CommitNamesGeneration(s.t, id, s.work.handshakes[id]);
    }
  }

  lemma CommitNamesGeneration(t: Tables, id: Id, h: Handshake)
    requires AckMatches(id, h) && CommitTables(t, id, h).Some?
    ensures var n := CommitTables(t, id, h).value;
            || n.log == t.log
            || (|n.log| == |t.log| + 1 && n.log[..|t.log|] == t.log &&
                n.log[|t.log|].device == h.plan.device && GenerationOf(n.log[|t.log|]) == h.generation)
  {
  }

  lemma FenceKeepsSockets(s: Hub, id: Id, plan: Plan)
    ensures SocketsKept(s, DoFence(s, id, plan)) && DoFence(s, id, plan).t.log == s.t.log
  {
    hide Exact, Live, ReservationCurrent, NoPending, Excluded, Settled;
  }

  lemma MigrationKeepsSockets(s: Hub, id: Id, device: Id, project: Id, actor: Id)
    requires Counted(s)
    ensures var n := DoMigrate(s, id, device, project, actor);
            SocketsKept(s, n) && MoveCloses(s, n)
  {
    hide Exact, LiveV2, MigrationEligible, Settled;
  }

  lemma AnswerKeepsSockets(s: Hub, a: HandshakeStep)
    requires !a.Commit? && !a.Fence? && !a.Migrate?
    ensures SocketsKept(s, DoHandshake(s, a)) && DoHandshake(s, a).t.log == s.t.log
  {
    hide Exact, AckMatches, Preflight, Live, ExpireStale, DoCommit, DoFence, DoMigrate, Settled;
  }

  lemma RequestKeepsSockets(s: Hub, a: HandshakeStep)
    requires Counted(s) && !a.Commit?
    ensures SocketsKept(s, DoHandshake(s, a)) && MoveCloses(s, DoHandshake(s, a))
  {
    hide SocketsKept, LiveV2, DoReserve, DoCancel, DoFence, DoRecheck, DoDeliver, DoVerify, DoCommit, DoFinish;
    hide DoMigrate;
    match a {
      case Fence(id, plan) => FenceKeepsSockets(s, id, plan);
      case Migrate(id, device, project, actor) => MigrationKeepsSockets(s, id, device, project, actor);
      case _ => AnswerKeepsSockets(s, a);
    }
  }

  lemma StepKeepsSockets(s: Hub, a: Action)
    requires FenceInv(s) && Counted(s)
    ensures SocketsKept(s, Apply(s, a)) && MoveCloses(s, Apply(s, a))
  {
    hide FenceInv, Counted, SocketsKept, MoveCloses, DoWorld, DoLink, DoDispatch, DoResult, DoScope, DoHandshake;
    if s.net.closing.Some? && NeedsLock(a) {
      SameSocketsKept(s);
      return;
    }
    match a {
      case Link(x) => LinkKeepsSockets(s, x); LinkClosesMoves(s, x);
      case Dispatching(x) => DispatchKeepsSockets(s, x);
      case Scoping(x) => ScopeKeepsSockets(s, x);
      case Handshaking(x) => HandshakeKeepsSockets(s, x);
      case World(x) => WorldKeepsSockets(s, x);
      case Result(x) => ResultKeepsSockets(s, x);
    }
  }

  lemma SameSocketsKept(s: Hub)
    ensures SocketsKept(s, s) && MoveCloses(s, s)
  {
    hide Exact;
  }

  lemma HandshakeKeepsSockets(s: Hub, a: HandshakeStep)
    requires FenceInv(s) && Counted(s) && (a.Commit? ==> s.net.closing.None?)
    ensures SocketsKept(s, DoHandshake(s, a)) && MoveCloses(s, DoHandshake(s, a))
  {
    hide FenceInv, Counted, SocketsKept, MoveCloses, DoCommit;
    if a.Commit? { CommitKeepsSockets(s, a.id); } else { RequestKeepsSockets(s, a); }
  }

  // ---------------------------------------------------------------- runs

  lemma InitCounted(env: Env, generation: nat)
    ensures GenInv(Init(env, generation))
  {
  }

  /** After any run from a stored counter: v2 generations stay below the counter, a device's open
      current socket is newer than every move of its log, and a socket enabled for an epoch is newer
      than the move that led to that epoch. */
  lemma {:induction false} MovesForceNewGeneration(env: Env, generation: nat, actions: seq<Action>)
    ensures GenInv(Run(Init(env, generation), actions))
  {
    hide GenInv, Apply, ScopesExact, BoundToScope, SocketsKept, MoveCloses, HistoryStep;
    var s := Init(env, generation);
    if actions == [] {
      InitCounted(env, generation);
    } else {
      var before := actions[..|actions| - 1];
      var a := actions[|actions| - 1];
      MovesForceNewGeneration(env, generation, before);
      InitKeepsFence(env, generation);
      RunKeepsFence(s, before);
      RunKeepsFence(s, actions);
      StepKeepsGenInv(Run(s, before), a);
    }
  }

  lemma StepKeepsGenInv(s: Hub, a: Action)
    requires GenInv(s) && FenceInv(s) && FenceInv(Apply(s, a))
    ensures GenInv(Apply(s, a))
  {
    hide Apply, SocketsKept, MoveCloses, HistoryStep, ScopesExact, BoundToScope, Reconnected, Separated;
    StepKeepsSockets(s, a);
    StepIsHistory(s, a);
    StepKeepsGenerations(s, Apply(s, a));
  }
}
