/** What the fence guarantees about every frame of every run. */
module FenceTheorems {
  import opened StageTypes
  import opened AssignmentCommits
  import opened HubMachine
  import opened CommandFence

  // ---------------------------------------------------------------- frames on the current socket

  ghost predicate CurrentFramesExact(s: Hub) {
    forall i | 0 <= i < |s.trace.frames| ::
      s.trace.frames[i].v2 && s.trace.frames[i].onCurrent ==> FrameExact(s.trace.frames[i]) || s.trace.frames[i].closing
  }

  /** Only Send writes a frame. */
  lemma OnlySendWrites(s: Hub, a: Action)
    ensures !(a.Dispatching? && a.dispatch.Send?) ==> Apply(s, a).trace.frames == s.trace.frames
  {
    hide NeedsLock, DoLink, DoDispatch, DoHandshake, DoScope, DoResult, DoWorld;
    match a {
      case World(x) => WorldWritesNothing(s, x);
      case Link(x) => LinkWritesNothing(s, x);
      case Dispatching(x) => if !x.Send? { DispatchWritesNothing(s, x); }
      case Result(x) => ResultWritesNothing(s, x);
      case Scoping(x) => ScopeWritesNothing(s, x);
      case Handshaking(x) => HandshakeWritesNothing(s, x);
    }
  }

  lemma WorldWritesNothing(s: Hub, a: WorldStep)
    ensures DoWorld(s, a).trace == s.trace
  {
  }

  lemma LinkWritesNothing(s: Hub, a: LinkStep)
    ensures DoLink(s, a).trace.frames == s.trace.frames
  {
    hide UpsertV1, RegisterV2;
  }

  lemma DispatchWritesNothing(s: Hub, a: DispatchStep)
    requires !a.Send?
    ensures DoDispatch(s, a).trace.frames == s.trace.frames
  {
    hide DeviceMay, ScopeMay, StandsFor, Fresh, CanBind, DoSend;
  }

  lemma ResultWritesNothing(s: Hub, a: ResultStep)
    ensures DoResult(s, a).trace.frames == s.trace.frames
  {
    hide MayAnswer, Starting, Complete;
  }

  lemma ScopeWritesNothing(s: Hub, a: ScopeStep)
    ensures DoScope(s, a).trace.frames == s.trace.frames
  {
    hide ScopeAuthoritative, ScopeReported, RecordAck, Live;
  }

  lemma HandshakeWritesNothing(s: Hub, a: HandshakeStep)
    ensures DoHandshake(s, a).trace.frames == s.trace.frames
  {
    hide CommitTables, Preflight, MigrateLegacy, AckMatches, CancelIntent, ReserveIntent, DropPending, Live;
  }

  /** A frame repeats the scope of its socket. Unless a commit is about to close that socket, a current
      one has the ACTIVE scope. */
  lemma SendOnCurrent(s: Hub, c: Id, delivered: bool)
    requires FenceInv(s)
    ensures var f, g := s.trace.frames, DoSend(s, c, delivered).trace.frames;
            g == f || (|g| == |f| + 1 && g[..|f|] == f &&
                       (g[|f|].v2 && g[|f|].onCurrent ==> FrameExact(g[|f|]) || g[|f|].closing))
  {
    if c in s.work.dispatches && s.work.dispatches[c].stage.Bound? {
      var d := s.work.dispatches[c];
      var k := d.stage.socket;
      if Settled(s, k) { assert s.net.sockets[k].v2 ==> HoldsScopeOf(s.net.sockets[k], d); }
    }
  }

  /** In every run, whoever ends commands and however reconnects interleave, a frame written to the
      device's current v2 socket names the scope that is ACTIVE at that moment, unless it falls between
      the transaction of a commit and the close of that very socket. */
  lemma {:induction false} CurrentSocketFence(env: Env, generation: int, actions: seq<Action>)
    ensures CurrentFramesExact(Run(Init(env, generation), actions))
  {
    hide Apply, FenceInv, FrameExact, DoSend;
    if actions != [] {
      var before := actions[..|actions| - 1];
      var a := actions[|actions| - 1];
      CurrentSocketFence(env, generation, before);
      InitKeepsFence(env, generation);
      RunKeepsFence(Init(env, generation), before);
      FramesOfStep(Run(Init(env, generation), before), a);
    }
  }

  lemma InitKeepsFence(env: Env, generation: int)
    ensures FenceInv(Init(env, generation))
  {
  }

  // ---------------------------------------------------------------- displaced sockets

  ghost predicate HasAccepted(t: Tables, c: Id, device: Id) {
    c in t.commands && t.commands[c].status == Accepted && t.commands[c].device == device
  }

  /** Until its frame is out, a command's row is ACCEPTED unless its socket is closed. */
  ghost predicate CounterHolds(s: Hub, c: Id, d: Dispatch) {
    match d.stage
    case Stored => c !in s.work.inflight && c !in s.work.interrupted && HasAccepted(s.t, c, d.device)
    case Bound(k, _, _) =>
      && (c in s.work.inflight ==> s.work.inflight[c] == k)
      && (c in s.work.interrupted ==> s.work.interrupted[c] == k)
      && (k in s.net.sockets && s.net.sockets[k].open ==> HasAccepted(s.t, c, d.device))
    case Failing => true
    case _ => c !in s.work.inflight && c !in s.work.interrupted
  }

  ghost predicate ScopeStillActive(s: Hub, d: Dispatch) {
    d.stage.Bound? && d.stage.socket in s.net.sockets && s.net.sockets[d.stage.socket].open &&
    s.net.sockets[d.stage.socket].v2 ==>
      d.device in s.t.assignments &&
      s.t.assignments[d.device] == Assignment(Active, d.project, d.snapshot, d.stage.epoch)
  }

  /** What the fence knows about one command that nobody ended early: its row and its socket hold off
      an assignment commit. */
  ghost predicate RowHolds(s: Hub, b: Id) {
    b in s.work.dispatches && b !in s.trace.early ==>
      CounterHolds(s, b, s.work.dispatches[b]) && ScopeStillActive(s, s.work.dispatches[b])
  }

  /** Tables may change only where no waiting dispatch looks. */
  ghost predicate SparesDispatches(s: Hub, n: Hub) {
    && n.work.dispatches == s.work.dispatches && n.work.inflight == s.work.inflight
    && n.work.interrupted == s.work.interrupted && s.trace.early <= n.trace.early
    && (forall k | k in s.net.sockets :: k in n.net.sockets && n.net.sockets[k].v2 == s.net.sockets[k].v2 &&
          (n.net.sockets[k].open ==> s.net.sockets[k].open))
    && (forall c | c in s.t.commands :: c in n.t.commands && n.t.commands[c] == s.t.commands[c])
    && (forall c | c in s.work.dispatches && s.work.dispatches[c].stage.Bound? ::
        s.work.dispatches[c].stage.socket in s.net.sockets)
    && (forall d | d in s.t.assignments && HasPendingCommand(s.t.commands, d) && s.t.assignments[d].state == Active ::
          d in n.t.assignments && n.t.assignments[d] == s.t.assignments[d])
  }

  lemma SparesPreserves(s: Hub, n: Hub, b: Id)
    requires RowHolds(s, b) && SparesDispatches(s, n)
    ensures RowHolds(n, b)
  {
    if b in n.work.dispatches && b !in n.trace.early && HasAccepted(s.t, b, s.work.dispatches[b].device) {
      assert HasPendingCommand(s.t.commands, s.work.dispatches[b].device);
    }
  }

  lemma CommitSpares(s: Hub, id: Id)
    requires FenceInv(s)
    ensures SparesDispatches(s, DoCommit(s, id))
  {
    if ReadyToCommit(s, id) && CommitTables(s.t, id, s.work.handshakes[id]).Some? {
      CommitMovesOneRow(s.t, id, s.work.handshakes[id]);
    }
  }

  lemma MigrateSpares(s: Hub, id: Id, device: Id, project: Id, actor: Id)
    requires FenceInv(s)
    ensures SparesDispatches(s, DoMigrate(s, id, device, project, actor))
  {
  }

  /** Commands, rows and dispatches stay, and no socket opens. */
  ghost predicate MovesNoRow(s: Hub, n: Hub) {
    && n.work.dispatches == s.work.dispatches && n.work.inflight == s.work.inflight
    && n.work.interrupted == s.work.interrupted && n.trace.early == s.trace.early
    && n.t.commands == s.t.commands && n.t.assignments == s.t.assignments
    && (forall k | k in s.net.sockets :: k in n.net.sockets && n.net.sockets[k].v2 == s.net.sockets[k].v2 &&
          (n.net.sockets[k].open ==> s.net.sockets[k].open))
  }

  lemma RequestSpares(s: Hub, a: HandshakeStep)
    requires FenceInv(s)
    requires !a.Commit? && !a.Migrate?
    ensures SparesDispatches(s, DoHandshake(s, a))
  {
    hide DoReserve, DoCancel, DoFence, DoRecheck, DoDeliver, DoVerify, DoCommit, DoFinish, DoMigrate, DoCloseCommitted;
    if a.Reserve? || a.CancelReservation? {
      ReservationMovesNoRow(s, a);
    } else if a.Fence? {
      FenceMovesNoRow(s, a.id, a.plan);
    } else {
      AnswerMovesNoRow(s, a);
    }
    assert forall c | c in s.work.dispatches && s.work.dispatches[c].stage.Bound? ::
           s.work.dispatches[c].stage.socket in s.net.sockets;
  }

  lemma ReservationMovesNoRow(s: Hub, a: HandshakeStep)
    requires a.Reserve? || a.CancelReservation?
    ensures MovesNoRow(s, DoHandshake(s, a))
  {
    hide DoCommit, DoMigrate, DoFence, DoRecheck, DoDeliver, DoVerify, DoFinish, DoCloseCommitted, ExpireStale;
  }

  lemma BlackoutFenceMovesNoRow(s: Hub, id: Id, plan: Plan)
    requires plan.kind == Blackout
    ensures MovesNoRow(s, DoFence(s, id, plan))
  {
    hide Live, ReservationCurrent, NoPending, Excluded;
  }

  lemma RaisedFenceMovesNoRow(s: Hub, id: Id, plan: Plan)
    requires plan.kind != Blackout
    ensures MovesNoRow(s, DoFence(s, id, plan))
  {
    hide Live, ReservationCurrent, NoPending, Excluded;
  }

  lemma FenceMovesNoRow(s: Hub, id: Id, plan: Plan)
    ensures MovesNoRow(s, DoFence(s, id, plan))
  {
    hide Live, ReservationCurrent, NoPending, Excluded, MovesNoRow;
    if plan.kind == Blackout {
      BlackoutFenceMovesNoRow(s, id, plan);
    } else {
      RaisedFenceMovesNoRow(s, id, plan);
    }
  }

  lemma AnswerMovesNoRow(s: Hub, a: HandshakeStep)
    requires a.Recheck? || a.DeliverAck? || a.Verify? || a.Finish? || a.CloseCommitted?
    ensures MovesNoRow(s, DoHandshake(s, a))
  {
    hide DoCommit, DoMigrate, DoReserve, DoCancel, DoFence, Preflight, Answers, MayVerify, DropPending;
  }

  lemma HandshakeKeepsRow(s: Hub, a: HandshakeStep, b: Id)
    requires FenceInv(s) && RowHolds(s, b)
    ensures RowHolds(DoHandshake(s, a), b)
  {
    hide DoReserve, DoCancel, DoFence, DoRecheck, DoDeliver, DoVerify, DoCommit, DoFinish, DoMigrate;
    match a {
      case Commit(id) => CommitSpares(s, id);
      case Migrate(id, device, project, actor) => MigrateSpares(s, id, device, project, actor);
      case _ => RequestSpares(s, a);
    }
    SparesPreserves(s, DoHandshake(s, a), b);
  }

  lemma HelloV1Spares(s: Hub, device: Id, project: Id, profile: Profile, kind: Kind)
    requires FenceInv(s)
    ensures SparesDispatches(s, DoHello(s, device, UpsertV1(s.t, device, project, profile, kind)))
  {
    HelloV1Quiet(s, device, project, profile, kind);
  }

  lemma HelloV2Spares(s: Hub, device: Id, profile: Profile, kind: Kind)
    requires FenceInv(s)
    ensures SparesDispatches(s, DoHello(s, device, RegisterV2(s.t, device, profile, kind)))
  {
    HelloV2Quiet(s, device, profile, kind);
  }

  lemma RegisterSpares(s: Hub, k: SocketId, device: Id, v2: bool)
    requires FenceInv(s)
    ensures SparesDispatches(s, DoRegister(s, k, device, v2))
  {
  }

  lemma LinkKeepsRow(s: Hub, a: LinkStep, b: Id)
    requires FenceInv(s) && RowHolds(s, b)
    ensures RowHolds(DoLink(s, a), b)
  {
    hide DoHello, DoRegister, DoUnregister, DoFailInterrupted, UpsertV1, RegisterV2;
    match a {
      case HelloV1(device, project, profile, kind) =>
        HelloV1Spares(s, device, project, profile, kind);
        SparesPreserves(s, DoLink(s, a), b);
      case HelloV2(device, profile, kind) =>
        HelloV2Spares(s, device, profile, kind);
        SparesPreserves(s, DoLink(s, a), b);
      case Register(k, device, v2) =>
        RegisterSpares(s, k, device, v2);
        SparesPreserves(s, DoLink(s, a), b);
      case FailInterrupted(c) => FailInterruptedKeepsRow(s, c, b);
      case CloseSocket(_) => SparesPreserves(s, DoLink(s, a), b);
      case Unregister(k) => UnregisterKeepsRow(s, k, b);
      case Stop => SparesPreserves(s, DoLink(s, a), b);
      case Restart =>
    }
  }

  lemma FailInterruptedKeepsRow(s: Hub, c: Id, b: Id)
    requires FenceInv(s) && RowHolds(s, b)
    ensures RowHolds(DoFailInterrupted(s, c), b)
  {
  }

  lemma UnregisterKeepsRow(s: Hub, k: SocketId, b: Id)
    requires FenceInv(s) && RowHolds(s, b)
    ensures RowHolds(DoUnregister(s, k), b)
  {
  }

  /** Rows and sockets of every other waiting command stay; no socket opens. */
  ghost predicate OthersKeep(s: Hub, n: Hub, c: Id) {
    && (forall b | b in n.work.dispatches && b != c ::
        b in s.work.dispatches && n.work.dispatches[b] == s.work.dispatches[b])
    && (forall b | b in n.work.inflight && b != c :: b in s.work.inflight && n.work.inflight[b] == s.work.inflight[b])
    && n.work.interrupted == s.work.interrupted && s.trace.early <= n.trace.early
    && n.t.assignments == s.t.assignments
    && (forall b | b in s.t.commands && b != c :: b in n.t.commands && n.t.commands[b] == s.t.commands[b])
    && n.net.sockets.Keys == s.net.sockets.Keys
    && (forall k | k in s.net.sockets :: n.net.sockets[k].v2 == s.net.sockets[k].v2 &&
          (n.net.sockets[k].open ==> s.net.sockets[k].open))
  }

  lemma OthersKeepRow(s: Hub, n: Hub, c: Id, b: Id)
    requires RowHolds(s, b) && OthersKeep(s, n, c)
    requires b == c ==> RowHolds(n, b)
    ensures RowHolds(n, b)
  {
  }

  lemma BindKeepsRow(s: Hub, c: Id, capable: bool, b: Id)
    requires FenceInv(s) && RowHolds(s, b) && s.net.closing.None?
    ensures RowHolds(DoBind(s, c, capable), b)
  {
    if AtStage(s, c, Stored) {
      var d := s.work.dispatches[c];
      if CanBind(s, d, capable) && s.net.sockets[s.net.current[d.device]].open {
        assert Settled(s, s.net.current[d.device]);
      }
      OthersKeepRow(s, DoBind(s, c, capable), c, b);
    }
  }

  lemma SendKeepsRow(s: Hub, c: Id, delivered: bool, b: Id)
    requires RowHolds(s, b)
    ensures RowHolds(DoSend(s, c, delivered), b)
  {
    OthersKeepRow(s, DoSend(s, c, delivered), c, b);
  }

  lemma AskKeepsRow(s: Hub, c: Id, device: Id, project: Id, snapshot: Id, key: Id, b: Id)
    requires RowHolds(s, b)
    ensures RowHolds(DoAsk(s, c, device, project, snapshot, key), b)
  {
    hide DeviceMay;
    OthersKeepRow(s, DoAsk(s, c, device, project, snapshot, key), c, b);
  }

  lemma OthersKept(s: Hub, c: Id, d: Dispatch)
    ensures OthersKeep(s, s, c) && OthersKeep(s, SetDispatch(s, c, d), c) && OthersKeep(s, EndDispatch(s, c), c)
  {
  }

  lemma CheckKeepsOthers(s: Hub, c: Id)
    ensures OthersKeep(s, DoCheck(s, c), c)
  {
    hide ScopeMay, OthersKeep, SetDispatch, EndDispatch;
    if c in s.work.dispatches { OthersKept(s, c, s.work.dispatches[c].(stage := Checked)); } else { SelfKept(s, c); }
  }

  lemma SelfKept(s: Hub, c: Id)
    ensures OthersKeep(s, s, c)
  {
  }

  lemma CheckKeepsRow(s: Hub, c: Id, b: Id)
    requires RowHolds(s, b)
    ensures RowHolds(DoCheck(s, c), b)
  {
    hide ScopeMay, OthersKeep;
    CheckKeepsOthers(s, c);
    OthersKeepRow(s, DoCheck(s, c), c, b);
  }

  lemma FindKeepsRow(s: Hub, c: Id, b: Id)
    requires RowHolds(s, b)
    ensures RowHolds(DoFind(s, c), b)
  {
    hide StandsFor;
    OthersKeepRow(s, DoFind(s, c), c, b);
  }

  lemma DuplicateKeepsRow(s: Hub, c: Id, existing: Id, b: Id)
    requires RowHolds(s, b)
    ensures RowHolds(DoDuplicate(s, c, existing), b)
  {
    hide StandsFor;
    OthersKeepRow(s, DoDuplicate(s, c, existing), c, b);
  }

  lemma StoreKeepsRow(s: Hub, c: Id, b: Id)
    requires RowHolds(s, b)
    ensures RowHolds(DoStore(s, c), b)
  {
    OthersKeepRow(s, DoStore(s, c), c, b);
  }

  lemma AbortKeepsRow(s: Hub, c: Id, b: Id)
    requires RowHolds(s, b)
    ensures RowHolds(DoAbort(s, c), b)
  {
    OthersKeepRow(s, DoAbort(s, c), c, b);
  }

  lemma FailKeepsRow(s: Hub, c: Id, b: Id)
    requires RowHolds(s, b)
    ensures RowHolds(DoFail(s, c), b)
  {
    OthersKeepRow(s, DoFail(s, c), c, b);
  }

  lemma DispatchKeepsRow(s: Hub, a: DispatchStep, b: Id)
    requires FenceInv(s) && RowHolds(s, b) && (a.Bind? ==> s.net.closing.None?)
    ensures RowHolds(DoDispatch(s, a), b)
  {
    hide FenceInv, RowHolds, DoAsk, DoCheck, DoFind, DoDuplicate, DoStore, DoAbort, DoBind, DoSend, DoFail;
    match a {
      case Bind(c, capable) => BindKeepsRow(s, c, capable, b);
      case Send(c, delivered) => SendKeepsRow(s, c, delivered, b);
      case Ask(c, device, project, snapshot, key) => AskKeepsRow(s, c, device, project, snapshot, key, b);
      case Check(c) => CheckKeepsRow(s, c, b);
      case Find(c) => FindKeepsRow(s, c, b);
      case Duplicate(c, existing) => DuplicateKeepsRow(s, c, existing, b);
      case Store(c) => StoreKeepsRow(s, c, b);
      case Abort(c) => AbortKeepsRow(s, c, b);
      case GiveUp(c) => FailKeepsRow(s, c, b);
    }
  }

  /** Whoever ends a command whose frame is still awaited is recorded. */
  lemma EndKeepsRow(s: Hub, c: Id, status: CommandStatus, b: Id)
    requires RowHolds(s, b)
    ensures RowHolds(EndCommand(s, c, status), b)
  {
    OthersKeepRow(s, EndCommand(s, c, status), c, b);
  }

  /** A step that leaves the fence's part of the state alone. */
  ghost predicate SameRows(s: Hub, n: Hub) {
    && n.t == s.t && n.net == s.net && n.work.dispatches == s.work.dispatches
    && n.work.inflight == s.work.inflight && n.work.interrupted == s.work.interrupted && n.trace.early == s.trace.early
  }

  lemma SameRowsHold(s: Hub, n: Hub, b: Id)
    requires RowHolds(s, b) && SameRows(s, n)
    ensures RowHolds(n, b)
  {
  }

  lemma AnswerKeepsRow(s: Hub, a: ResultStep, b: Id)
    requires RowHolds(s, b) && (a.AllowResult? || a.TakeResult?)
    ensures RowHolds(DoResult(s, a), b)
  {
    hide RowHolds, MayAnswer, Starting;
    if a.AllowResult? {
      SameRowsHold(s, DoAllowResult(s, a.socket, a.command, a.status), b);
    } else {
      SameRowsHold(s, DoTakeResult(s, a.socket), b);
    }
  }

  lemma StoreResultKeepsRow(s: Hub, k: SocketId, b: Id)
    requires RowHolds(s, b)
    ensures RowHolds(DoStoreResult(s, k), b)
  {
    hide RowHolds, Starting;
    if k in s.work.answers && s.work.answers[k].stage.Taken? {
      var a := s.work.answers[k];
      EndKeepsRow(s, a.command, a.status, b);
      SameRowsHold(EndCommand(s, a.command, a.status), DoStoreResult(s, k), b);
    }
  }

  lemma UnbindKeepsOthers(s: Hub, k: SocketId)
    requires k in s.work.answers
    ensures OthersKeep(s, DoUnbind(s, k), s.work.answers[k].command)
  {
  }

  lemma UnbindKeepsRow(s: Hub, k: SocketId, b: Id)
    requires RowHolds(s, b)
    ensures RowHolds(DoUnbind(s, k), b)
  {
    hide OthersKeep;
    if k in s.work.answers { UnbindKeepsOthers(s, k); }
    if k in s.work.answers { OthersKeepRow(s, DoUnbind(s, k), s.work.answers[k].command, b); }
  }

  lemma InterruptKeepsRow(s: Hub, c: Id, status: CommandStatus, b: Id)
    requires RowHolds(s, b)
    ensures RowHolds(DoInterruptCaller(s, c, status), b)
  {
    hide RowHolds, EndCommand;
    EndKeepsRow(s, c, status, b);
  }

  lemma ReopenKeepsRow(s: Hub, c: Id, b: Id)
    requires RowHolds(s, b)
    ensures RowHolds(DoReopen(s, c), b)
  {
    OthersKeepRow(s, DoReopen(s, c), c, b);
  }

  lemma ResultKeepsRow(s: Hub, a: ResultStep, b: Id)
    requires RowHolds(s, b)
    ensures RowHolds(DoResult(s, a), b)
  {
    hide RowHolds, DoAllowResult, DoTakeResult, DoUnbind, DoStoreResult, DoInterruptCaller, DoReopen;
    match a {
      case StoreResult(k) => StoreResultKeepsRow(s, k, b);
      case Unbind(k) => UnbindKeepsRow(s, k, b);
      case InterruptCaller(c, status) => InterruptKeepsRow(s, c, status, b);
      case ReopenCommand(c) => ReopenKeepsRow(s, c, b);
      case _ => AnswerKeepsRow(s, a, b);
    }
  }

  lemma ScopeSpares(s: Hub, a: ScopeStep)
    requires FenceInv(s)
    ensures SparesDispatches(s, DoScope(s, a))
  {
    hide ScopeAuthoritative, ScopeReported, HasPendingCommand, ScopesExact;
  }

  lemma ScopeKeepsRow(s: Hub, a: ScopeStep, b: Id)
    requires FenceInv(s) && RowHolds(s, b)
    ensures RowHolds(DoScope(s, a), b)
  {
    hide RowHolds, DoScope;
    ScopeSpares(s, a);
    SparesPreserves(s, DoScope(s, a), b);
  }

  lemma WorldKeepsRow(s: Hub, a: WorldStep, b: Id)
    requires FenceInv(s) && RowHolds(s, b)
    ensures RowHolds(DoWorld(s, a), b)
  {
    SparesPreserves(s, DoWorld(s, a), b);
  }

  lemma StepKeepsRow(s: Hub, a: Action, b: Id)
    requires FenceInv(s) && RowHolds(s, b)
    ensures RowHolds(Apply(s, a), b)
  {
    hide FenceInv, RowHolds, DoWorld, DoLink, DoDispatch, DoResult, DoScope, DoHandshake;
    if s.net.closing.Some? && NeedsLock(a) { return; }
    match a {
      case World(x) => WorldKeepsRow(s, x, b);
      case Link(x) => LinkKeepsRow(s, x, b);
      case Dispatching(x) => DispatchKeepsRow(s, x, b);
      case Result(x) => ResultKeepsRow(s, x, b);
      case Scoping(x) => ScopeKeepsRow(s, x, b);
      case Handshaking(x) => HandshakeKeepsRow(s, x, b);
    }
  }

  // ---------------------------------------------------------------- the fence on every socket

  lemma {:induction false} RunKeepsRow(env: Env, generation: int, actions: seq<Action>, b: Id)
    ensures RowHolds(Run(Init(env, generation), actions), b)
  {
    hide FenceInv, Apply;
    if actions != [] {
      var before := actions[..|actions| - 1];
      RunKeepsRow(env, generation, before, b);
      InitKeepsFence(env, generation);
      RunKeepsFence(Init(env, generation), before);
      StepKeepsRow(Run(Init(env, generation), before), actions[|actions| - 1], b);
    }
  }

  /** Whatever frame is not exact belongs to a command that was ended early. */
  ghost predicate ExactOrEarly(s: Hub) {
    forall i | 0 <= i < |s.trace.frames| ::
      s.trace.frames[i].v2 ==> FrameExact(s.trace.frames[i]) || s.trace.frames[i].command in s.trace.early
  }

  /** A frame of a command that holds its row names the ACTIVE scope. */
  lemma SendWritesActive(s: Hub, c: Id, delivered: bool)
    requires FenceInv(s)
    ensures var f, g := s.trace.frames, DoSend(s, c, delivered).trace.frames;
            g == f || (|g| == |f| + 1 && g[..|f|] == f && g[|f|].command == c &&
                       (RowHolds(s, c) && g[|f|].v2 ==> FrameExact(g[|f|]) || c in s.trace.early))
  {
  }

  /** In every run, whatever is interleaved, a frame written to an open v2 socket, displaced ones
      included, names the ACTIVE scope of that moment, unless somebody ended that very command while
      its Dispatch had not written the frame yet. */
  lemma {:induction false} EverySocketFence(env: Env, generation: int, actions: seq<Action>)
    ensures ExactOrEarly(Run(Init(env, generation), actions))
  {
    hide FenceInv, RowHolds, Apply, FrameExact;
    if actions != [] {
      var before := actions[..|actions| - 1];
      var a := actions[|actions| - 1];
      var s := Run(Init(env, generation), before);
      EverySocketFence(env, generation, before);
      InitKeepsFence(env, generation);
      RunKeepsFence(Init(env, generation), before);
      FramesOfStep(s, a);
      EarlyGrows(s, a);
      if a.Dispatching? && a.dispatch.Send? { RunKeepsRow(env, generation, before, a.dispatch.command); }
    }
  }

  /** A step adds at most the one frame of the command it sends. */
  lemma FramesOfStep(s: Hub, a: Action)
    requires FenceInv(s)
    ensures var f, g := s.trace.frames, Apply(s, a).trace.frames;
            g == f || (|g| == |f| + 1 && g[..|f|] == f && a.Dispatching? && a.dispatch.Send? &&
                       g[|f|].command == a.dispatch.command &&
                       (g[|f|].v2 && g[|f|].onCurrent ==> FrameExact(g[|f|]) || g[|f|].closing) &&
                       (RowHolds(s, a.dispatch.command) && g[|f|].v2 ==>
                          FrameExact(g[|f|]) || a.dispatch.command in s.trace.early))
  {
    hide FenceInv, RowHolds, FrameExact, DoLink, DoHandshake, DoScope, DoResult, DoWorld, DoSend;
    OnlySendWrites(s, a);
    if a.Dispatching? && a.dispatch.Send? {
      SendWritesActive(s, a.dispatch.command, a.dispatch.delivered);
      SendOnCurrent(s, a.dispatch.command, a.dispatch.delivered);
    }
  }

  // ---------------------------------------------------------------- who ends a command early

  lemma EarlyGrows(s: Hub, a: Action)
    ensures s.trace.early <= Apply(s, a).trace.early
  {
    hide NeedsLock, Live, MayAnswer, CommitTables, Preflight, MigrateLegacy, UpsertV1, RegisterV2, DeviceMay, ScopeMay;
  }

  /** Whoever can still end this command early was handed it by a duplicate request, or is the device
      that answers ahead of the frame. */
  ghost predicate EndersKnown(s: Hub, c: Id) {
    && (c in s.trace.early ==> c in s.trace.duplicated || c in s.trace.answered)
    && (Starting(s, c) ==>
          && (c in s.work.callers ==> c in s.trace.duplicated)
          && (forall k | k in s.work.answers && s.work.answers[k].command == c && s.work.answers[k].stage.Taken? ::
                c in s.trace.answered))
  }

  /** A dispatch goes on, or ends and hands over its command, or hands over a duplicated one. */
  ghost predicate HandsOver(s: Hub, n: Hub, c: Id) {
    && n.trace.early == s.trace.early && n.trace.answered == s.trace.answered && n.work.answers == s.work.answers
    && s.trace.duplicated <= n.trace.duplicated
    && (c in n.work.callers ==> c in s.work.callers || c in n.trace.duplicated || !Starting(n, c))
    && (Starting(n, c) ==> Starting(s, c) || Fresh(s, c))
  }

  lemma HandingOverKeepsEnders(s: Hub, n: Hub, c: Id)
    requires EndersKnown(s, c) && HandsOver(s, n, c)
    ensures EndersKnown(n, c)
  {
  }

  lemma ReadsHandOver(s: Hub, a: DispatchStep, c: Id)
    requires OnlyReads(a)
    ensures HandsOver(s, DoDispatch(s, a), c)
  {
    hide DoAsk, DoCheck, DoFind, DoDuplicate, DoStore, DoAbort, DoFail, DoBind, DoSend;
    match a {
      case Ask(x, device, project, snapshot, key) => AskHandsOver(s, x, device, project, snapshot, key, c);
      case Check(x) => CheckHandsOver(s, x, c);
      case Find(x) => FindHandsOver(s, x, c);
      case Duplicate(x, existing) => DuplicateHandsOver(s, x, existing, c);
    }
  }

  lemma AskHandsOver(s: Hub, x: Id, device: Id, project: Id, snapshot: Id, key: Id, c: Id)
    ensures HandsOver(s, DoAsk(s, x, device, project, snapshot, key), c)
  {
    hide DeviceMay;
  }

  lemma CheckHandsOver(s: Hub, x: Id, c: Id)
    ensures HandsOver(s, DoCheck(s, x), c)
  {
    hide ScopeMay, Fresh;
  }

  lemma FindHandsOver(s: Hub, x: Id, c: Id)
    ensures HandsOver(s, DoFind(s, x), c)
  {
    hide StandsFor, Fresh;
  }

  lemma DuplicateHandsOver(s: Hub, x: Id, existing: Id, c: Id)
    ensures HandsOver(s, DoDuplicate(s, x, existing), c)
  {
    hide StandsFor, Fresh;
  }

  lemma WritesHandOver(s: Hub, a: DispatchStep, c: Id)
    requires a.Store? || a.Abort? || a.GiveUp?
    ensures HandsOver(s, DoDispatch(s, a), c)
  {
    hide DoAsk, DoCheck, DoFind, DoDuplicate, DoBind, DoSend, Fresh, Complete, DeleteAccepted;
  }

  lemma SendHandsOver(s: Hub, a: DispatchStep, c: Id)
    requires a.Bind? || a.Send?
    ensures HandsOver(s, DoDispatch(s, a), c)
  {
    hide DoAsk, DoCheck, DoFind, DoDuplicate, DoStore, DoAbort, DoFail, CanBind, Fresh, FrameOf;
  }

  lemma DispatchKeepsEnders(s: Hub, a: DispatchStep, c: Id)
    requires EndersKnown(s, c)
    ensures EndersKnown(DoDispatch(s, a), c)
  {
    hide EndersKnown, HandsOver;
    if OnlyReads(a) {
      ReadsHandOver(s, a, c);
    } else if a.Bind? || a.Send? {
      SendHandsOver(s, a, c);
    } else {
      WritesHandOver(s, a, c);
    }
    HandingOverKeepsEnders(s, DoDispatch(s, a), c);
  }

  lemma ResultKeepsEnders(s: Hub, a: ResultStep, c: Id)
    requires EndersKnown(s, c)
    ensures EndersKnown(DoResult(s, a), c)
  {
  }

  lemma LinkKeepsEnders(s: Hub, a: LinkStep, c: Id)
    requires EndersKnown(s, c)
    ensures EndersKnown(DoLink(s, a), c)
  {
    hide UpsertV1, RegisterV2;
  }

  lemma ScopeKeepsEnders(s: Hub, a: ScopeStep, c: Id)
    requires EndersKnown(s, c)
    ensures EndersKnown(DoScope(s, a), c)
  {
    hide ScopeAuthoritative, ScopeReported, RecordAck, Live;
  }

  lemma HandshakeKeepsEnders(s: Hub, a: HandshakeStep, c: Id)
    requires EndersKnown(s, c)
    ensures EndersKnown(DoHandshake(s, a), c)
  {
    hide CommitTables, Preflight, MigrateLegacy, AckMatches, CancelIntent, ReserveIntent, DropPending, Live;
  }

  lemma StepKeepsEnders(s: Hub, a: Action, c: Id)
    requires EndersKnown(s, c)
    ensures EndersKnown(Apply(s, a), c)
  {
    hide EndersKnown, NeedsLock, DoLink, DoHandshake, DoDispatch, DoScope, DoResult;
    match a {
      case World(x) => WorldKeepsEnders(s, x, c);
      case Link(x) => LinkKeepsEnders(s, x, c);
      case Dispatching(x) => DispatchKeepsEnders(s, x, c);
      case Result(x) => ResultKeepsEnders(s, x, c);
      case Scoping(x) => ScopeKeepsEnders(s, x, c);
      case Handshaking(x) => HandshakeKeepsEnders(s, x, c);
    }
  }

  lemma WorldKeepsEnders(s: Hub, a: WorldStep, c: Id)
    requires EndersKnown(s, c)
    ensures EndersKnown(DoWorld(s, a), c)
  {
  }

  /** In every run, a command can only be ended ahead of its frame because a duplicate request with its
      idempotency key was handed the command meanwhile and then gave up waiting, or because the device
      itself sent a result for a command it had not been sent. */
  lemma {:induction false} EarlyHasCause(env: Env, generation: int, actions: seq<Action>, c: Id)
    ensures EndersKnown(Run(Init(env, generation), actions), c)
  {
    hide Apply, EndersKnown;
    if actions == [] {
      InitKnowsEnders(env, generation, c);
    } else {
      EarlyHasCause(env, generation, actions[..|actions| - 1], c);
      StepKeepsEnders(Run(Init(env, generation), actions[..|actions| - 1]), actions[|actions| - 1], c);
    }
  }

  lemma InitKnowsEnders(env: Env, generation: int, c: Id)
    ensures EndersKnown(Init(env, generation), c)
  {
  }
}
