/** The command fence: in every interleaving of dispatches, reconnects, scope acknowledgments and
    assignment commits, what a v2 socket is told to execute belongs to its device's ACTIVE scope. */
module CommandFence {
  import opened StageTypes
  import opened AssignmentCommits
  import opened HubMachine

  ghost predicate Exact(t: Tables, device: Id, scope: Scope) {
    && device in t.assignments
    && t.assignments[device] == Assignment(Active, scope.project, scope.snapshot, scope.epoch)
  }

  ghost predicate WiredSockets(s: Hub) {
    && s.t.devices.Keys == s.t.assignments.Keys
    && (forall d | d in s.net.current ::
          s.net.current[d] in s.net.sockets && s.net.sockets[s.net.current[d]].device == d)
    && (forall k | k in s.net.sockets :: s.net.sockets[k].device in s.t.devices)
    && (forall k | k in s.work.scopeReads :: k in s.net.sockets)
    && NO_ID !in s.work.handshakes
  }

  /** The device's open socket, which no commit is about to close. */
  ghost predicate Settled(s: Hub, k: SocketId) {
    IsCurrent(s.net, k) && s.net.sockets[k].open && s.net.closing != Some(k)
  }

  /** Such a socket only holds, or is about to hold, the stored ACTIVE scope. */
  ghost predicate ScopesExact(s: Hub) {
    && (forall k | Settled(s, k) && s.net.sockets[k].v2 && s.net.sockets[k].enabled ::
          Exact(s.t, s.net.sockets[k].device, s.net.sockets[k].scope))
    && (forall k | k in s.work.scopeReads && Settled(s, k) :: Exact(s.t, s.net.sockets[k].device, s.work.scopeReads[k]))
  }

  ghost predicate HoldsScopeOf(k: Socket, d: Dispatch)
    requires d.stage.Bound?
  {
    k.enabled && k.scope == Scope(d.project, d.snapshot, d.stage.epoch)
  }

  /** A bound dispatch repeats the scope its socket was enabled for. */
  ghost predicate BoundToScope(s: Hub) {
    forall c | c in s.work.dispatches && s.work.dispatches[c].stage.Bound? ::
      var d := s.work.dispatches[c];
      var k := d.stage.socket;
      && k in s.net.sockets && s.net.sockets[k].device == d.device
      && (s.net.sockets[k].v2 ==> HoldsScopeOf(s.net.sockets[k], d))
  }

  ghost predicate FenceInv(s: Hub) {
    WiredSockets(s) && ScopesExact(s) && BoundToScope(s)
  }

  /** The frame names the scope that was ACTIVE when it was written, in the epoch it was bound for. */
  ghost predicate FrameExact(f: Frame) {
    f.assignment == Some(Assignment(Active, f.project, f.snapshot, f.epoch))
  }

  // ---------------------------------------------------------------- what a commit changes

  /** No transaction of the machine moves an assignment except for the device it names, and a
      commit refuses while that device has an ACCEPTED command. */
  lemma CommitMovesOneRow(t: Tables, id: Id, h: Handshake)
    requires AckMatches(id, h) && CommitTables(t, id, h).Some?
    requires h.plan.kind == Blackout ==> id != NO_ID
    ensures var n := CommitTables(t, id, h).value;
            && n.devices == t.devices && n.commands == t.commands && n.generation == t.generation
            && n.assignments.Keys == t.assignments.Keys
            && (forall d | d in t.assignments && d != h.plan.device :: n.assignments[d] == t.assignments[d])
            && (n.assignments != t.assignments ==> !HasPendingCommand(t.commands, h.plan.device))
  {
  }

  /** Some device's row may have moved, and its current socket is about to be closed. */
  ghost predicate MovesClosed(s: Hub, n: Hub, device: Id) {
    && n.net.current == s.net.current && n.work.scopeReads == s.work.scopeReads &&
       n.work.dispatches == s.work.dispatches
    && n.trace.frames == s.trace.frames && NO_ID !in n.work.handshakes
    && n.t.devices.Keys == s.t.devices.Keys && n.t.assignments.Keys == s.t.assignments.Keys
    && (forall d | d in s.t.assignments && d != device :: n.t.assignments[d] == s.t.assignments[d])
    && device in s.net.current && n.net.sockets == s.net.sockets
    && s.net.closing.None? && n.net.closing == Some(s.net.current[device])
  }

  lemma MovesClosedPreserves(s: Hub, n: Hub, device: Id)
    requires FenceInv(s) && MovesClosed(s, n, device)
    ensures FenceInv(n)
  {
    forall k | Settled(n, k) ensures Settled(s, k) && s.net.sockets[k].device != device {}
  }

  lemma CommitPreserves(s: Hub, id: Id)
    requires FenceInv(s) && s.net.closing.None?
    ensures FenceInv(DoCommit(s, id))
  {
    if ReadyToCommit(s, id) && CommitTables(s.t, id, s.work.handshakes[id]).Some? {
      var h := s.work.handshakes[id];
      assert MovesClosed(s, DoCommit(s, id), h.plan.device) by { CommitMovesOneRow(s.t, id, h); }
      MovesClosedPreserves(s, DoCommit(s, id), h.plan.device);
    }
  }

  lemma MigratePreserves(s: Hub, id: Id, device: Id, project: Id, actor: Id)
    requires FenceInv(s)
    ensures FenceInv(DoMigrate(s, id, device, project, actor))
  {
    var m := MigrateLegacy(s.t, id, device, project, actor);
    if m.Some? {
      assert s.t.assignments[device].state == Legacy;
      forall k | Settled(s, k) && s.net.sockets[k].device == device
        ensures !(s.net.sockets[k].v2 && s.net.sockets[k].enabled) && k !in s.work.scopeReads {}
    }
  }

  // ---------------------------------------------------------------- the other steps

  /** Only keys may be added to the device tables; sockets and counters stay. */
  ghost predicate Quiet(s: Hub, n: Hub) {
    && n.net.current == s.net.current && n.net.sockets == s.net.sockets && n.net.closing == s.net.closing
    && n.work.scopeReads == s.work.scopeReads && n.work.dispatches == s.work.dispatches && NO_ID !in n.work.handshakes
    && n.t.devices.Keys == n.t.assignments.Keys && s.t.devices.Keys <= n.t.devices.Keys
    && s.t.assignments.Keys <= n.t.assignments.Keys
    && (forall d | d in s.t.assignments :: n.t.assignments[d] == s.t.assignments[d])
  }

  lemma QuietPreserves(s: Hub, n: Hub)
    requires FenceInv(s) && Quiet(s, n)
    ensures FenceInv(n)
  {
    forall k ensures Settled(n, k) == Settled(s, k) {}
  }

  lemma HelloV1Quiet(s: Hub, device: Id, project: Id, profile: Profile, kind: Kind)
    requires FenceInv(s)
    ensures Quiet(s, DoHello(s, device, UpsertV1(s.t, device, project, profile, kind)))
  {
  }

  lemma HelloV2Quiet(s: Hub, device: Id, profile: Profile, kind: Kind)
    requires FenceInv(s)
    ensures Quiet(s, DoHello(s, device, RegisterV2(s.t, device, profile, kind)))
  {
  }

  lemma RegisterPreserves(s: Hub, k: SocketId, device: Id, v2: bool)
    requires FenceInv(s)
    ensures FenceInv(DoRegister(s, k, device, v2))
  {
    var n := DoRegister(s, k, device, v2);
    if n != s {
      forall j | j in s.net.sockets ensures n.net.sockets[j] == s.net.sockets[j] && j != k {}
      forall j | j in s.net.sockets && Settled(n, j) ensures Settled(s, j) {}
    }
  }

  /** Closing sockets and forgetting current ones only removes obligations. */
  ghost predicate Weakens(s: Hub, n: Hub) {
    && n.t == s.t && n.net.sockets.Keys == s.net.sockets.Keys && NO_ID !in n.work.handshakes
    && (forall k | k in s.net.sockets ::
          n.net.sockets[k] == s.net.sockets[k] || n.net.sockets[k] == s.net.sockets[k].(open := false))
    && (n.net.closing == s.net.closing ||
        forall k | k in n.net.sockets && s.net.closing == Some(k) :: !n.net.sockets[k].open)
    && n.net.current.Keys <= s.net.current.Keys
    && (forall d | d in n.net.current :: n.net.current[d] == s.net.current[d])
    && n.work.scopeReads.Keys <= s.work.scopeReads.Keys
    && (forall k | k in n.work.scopeReads :: n.work.scopeReads[k] == s.work.scopeReads[k])
    && (forall c | c in n.work.dispatches && n.work.dispatches[c].stage.Bound? ::
          c in s.work.dispatches && n.work.dispatches[c] == s.work.dispatches[c])
  }

  lemma WeakensPreserves(s: Hub, n: Hub)
    requires FenceInv(s) && Weakens(s, n)
    ensures FenceInv(n)
  {
    forall k | Settled(n, k) ensures Settled(s, k) {}
  }

  lemma LinkPreserves(s: Hub, a: LinkStep)
    requires FenceInv(s)
    ensures FenceInv(DoLink(s, a))
  {
    hide DoHello, DoRegister;
    match a {
      case HelloV1(device, project, profile, kind) =>
        HelloV1Quiet(s, device, project, profile, kind);
        QuietPreserves(s, DoLink(s, a));
      case HelloV2(device, profile, kind) =>
        HelloV2Quiet(s, device, profile, kind);
        QuietPreserves(s, DoLink(s, a));
      case Register(k, device, v2) => RegisterPreserves(s, k, device, v2);
      case FailInterrupted(_) => QuietPreserves(s, DoLink(s, a));
      case CloseSocket(_) => WeakensPreserves(s, DoLink(s, a));
      case Unregister(_) => WeakensPreserves(s, DoLink(s, a));
      case Stop => WeakensPreserves(s, DoLink(s, a));
      case Restart => WeakensPreserves(s, DoLink(s, a));
    }
  }

  /** Sockets, current sockets, reads and assignment rows are untouched. */
  ghost predicate OnlyDispatches(s: Hub, n: Hub) {
    && n.net == s.net && n.work.scopeReads == s.work.scopeReads
    && n.work.handshakes == s.work.handshakes && n.t.devices == s.t.devices && n.t.assignments == s.t.assignments
  }

  lemma OnlyDispatchesKeepsScopes(s: Hub, n: Hub)
    requires WiredSockets(s) && ScopesExact(s) && OnlyDispatches(s, n)
    ensures WiredSockets(n) && ScopesExact(n)
  {
  }

  lemma BindPreserves(s: Hub, c: Id, capable: bool)
    requires FenceInv(s) && s.net.closing.None?
    ensures FenceInv(DoBind(s, c, capable))
  {
    hide CanBind, ScopesExact, WiredSockets, BoundToScope;
    OnlyDispatchesKeepsScopes(s, DoBind(s, c, capable));
    BindHoldsScope(s, c, capable);
  }

  lemma BindHoldsScope(s: Hub, c: Id, capable: bool)
    requires WiredSockets(s) && BoundToScope(s)
    ensures BoundToScope(DoBind(s, c, capable))
  {
    var n := DoBind(s, c, capable);
    forall b | b in n.work.dispatches && b != c
      ensures b in s.work.dispatches && n.work.dispatches[b] == s.work.dispatches[b] {}
  }

  /** Only program counters of dispatches move, and none of them becomes bound. */
  ghost predicate Counts(s: Hub, n: Hub) {
    && OnlyDispatches(s, n)
    && forall c | c in n.work.dispatches && n.work.dispatches[c].stage.Bound? ::
         c in s.work.dispatches && n.work.dispatches[c] == s.work.dispatches[c]
  }

  /** The steps of a dispatch that only read. */
  predicate OnlyReads(a: DispatchStep) {
    a.Ask? || a.Check? || a.Find? || a.Duplicate?
  }

  lemma CountersMove(s: Hub, a: DispatchStep)
    requires !a.Bind? && !a.Send?
    ensures Counts(s, DoDispatch(s, a))
  {
    hide Counts, DoDispatch;
    if OnlyReads(a) { ReadsCount(s, a); } else { WritesCount(s, a); }
  }

  lemma AskOnlyDispatches(s: Hub, c: Id, device: Id, project: Id, snapshot: Id, key: Id)
    ensures OnlyDispatches(s, DoAsk(s, c, device, project, snapshot, key))
  {
    hide DeviceMay;
  }

  lemma OneDispatchMoves(s: Hub, c: Id, d: Dispatch)
    ensures OnlyDispatches(s, EndDispatch(s, c)) && OnlyDispatches(s, SetDispatch(s, c, d))
  {
  }

  lemma CheckOnlyDispatches(s: Hub, c: Id)
    ensures OnlyDispatches(s, DoCheck(s, c))
  {
    hide ScopeMay, SetDispatch, EndDispatch;
    if c in s.work.dispatches { OneDispatchMoves(s, c, s.work.dispatches[c].(stage := Checked)); }
  }

  lemma LookupsOnlyDispatches(s: Hub, a: DispatchStep)
    requires a.Find? || a.Duplicate?
    ensures OnlyDispatches(s, DoDispatch(s, a))
  {
    hide StandsFor, DoAsk, DoCheck, DoStore, DoAbort, DoBind, DoSend, DoFail;
  }

  lemma ReadsCount(s: Hub, a: DispatchStep)
    requires OnlyReads(a)
    ensures Counts(s, DoDispatch(s, a))
  {
    hide DeviceMay, ScopeMay, StandsFor, Fresh, DoStore, DoAbort, DoBind, DoSend, DoFail, OnlyDispatches;
    match a {
      case Ask(c, device, project, snapshot, key) => AskOnlyDispatches(s, c, device, project, snapshot, key);
      case Check(c) => CheckOnlyDispatches(s, c);
      case _ => LookupsOnlyDispatches(s, a);
    }
  }

  lemma WritesCount(s: Hub, a: DispatchStep)
    requires a.Store? || a.Abort? || a.GiveUp?
    ensures Counts(s, DoDispatch(s, a))
  {
    hide DoAsk, DoCheck, DoFind, DoDuplicate, DoBind, DoSend;
  }

  lemma CountersPreserve(s: Hub, n: Hub)
    requires FenceInv(s) && Counts(s, n)
    ensures FenceInv(n)
  {
    OnlyDispatchesKeepsScopes(s, n);
  }

  lemma SendPreserves(s: Hub, c: Id, delivered: bool)
    requires FenceInv(s)
    ensures FenceInv(DoSend(s, c, delivered))
  {
    WeakensPreserves(s, DoSend(s, c, delivered));
  }

  lemma DispatchPreserves(s: Hub, a: DispatchStep)
    requires FenceInv(s) && (a.Bind? ==> s.net.closing.None?)
    ensures FenceInv(DoDispatch(s, a))
  {
    hide FenceInv, DoAsk, DoCheck, DoFind, DoDuplicate, DoStore, DoAbort, DoBind, DoSend, DoFail;
    match a {
      case Bind(c, capable) => BindPreserves(s, c, capable);
      case Send(c, delivered) => SendPreserves(s, c, delivered);
      case _ => CountersMove(s, a); CountersPreserve(s, DoDispatch(s, a));
    }
  }

  lemma EnablePreserves(s: Hub, k: SocketId)
    requires FenceInv(s) && s.net.closing.None?
    ensures FenceInv(DoEnable(s, k))
  {
    var n := DoEnable(s, k);
    if k in s.work.scopeReads && Live(s.net, k) && s.net.sockets[k].device !in s.net.transitions {
      forall j ensures Settled(n, j) == Settled(s, j) {}
      assert WiredSockets(n);
      assert ScopesExact(n);
      EnableKeepsBound(s, k);
    } else {
      WeakensPreserves(s, n);
    }
  }

  /** An enabled live socket already has the scope it is enabled for again. */
  lemma EnableKeepsBound(s: Hub, k: SocketId)
    requires FenceInv(s) && s.net.closing.None? && k in s.work.scopeReads && Live(s.net, k)
    ensures BoundToScope(DoEnable(s, k))
  {
    var n := DoEnable(s, k);
    forall c | c in n.work.dispatches && n.work.dispatches[c].stage.Bound? && n.work.dispatches[c].stage.socket == k
      ensures n.net.sockets[k].v2 ==> HoldsScopeOf(n.net.sockets[k], n.work.dispatches[c])
    {
      assert s.work.dispatches[c] == n.work.dispatches[c];
      if s.net.sockets[k].v2 {
        assert Settled(s, k);
        assert Exact(s.t, s.net.sockets[k].device, s.net.sockets[k].scope);
        assert Exact(s.t, s.net.sockets[k].device, s.work.scopeReads[k]);
      }
    }
  }

  lemma ReadScopePreserves(s: Hub, k: SocketId, scope: Scope, report: ScopeReport)
    requires FenceInv(s)
    ensures FenceInv(DoReadScope(s, k, scope, report))
  {
  }

  lemma ScopePreserves(s: Hub, a: ScopeStep)
    requires FenceInv(s) && (a.EnableScope? ==> s.net.closing.None?)
    ensures FenceInv(DoScope(s, a))
  {
    match a {
      case ReadScope(k, scope, report) => ReadScopePreserves(s, k, scope, report);
      case EnableScope(k) => EnablePreserves(s, k);
      case _ => QuietPreserves(s, DoScope(s, a));
    }
  }

  lemma WorldPreserves(s: Hub, a: WorldStep)
    requires FenceInv(s)
    ensures FenceInv(DoWorld(s, a))
  {
    QuietPreserves(s, DoWorld(s, a));
  }

  /** Results change neither sockets nor scopes, nor where a Dispatch stands. */
  lemma ResultLeavesNet(s: Hub, a: ResultStep)
    ensures var n := DoResult(s, a);
            && n.net == s.net && n.t.devices == s.t.devices
            && n.work.scopeReads == s.work.scopeReads && n.work.dispatches == s.work.dispatches
  {
    hide MayAnswer, Starting, Unbound;
  }

  lemma ResultPreserves(s: Hub, a: ResultStep)
    requires FenceInv(s)
    ensures FenceInv(DoResult(s, a))
  {
    hide DoResult, Settled;
    ResultLeavesNet(s, a);
    ResultLeavesMoves(s, a);
    QuietPreserves(s, DoResult(s, a));
  }

  lemma ReserveQuiet(s: Hub, id: Id, plan: Plan, generation: int)
    requires FenceInv(s)
    ensures Quiet(s, DoReserve(s, id, plan, generation))
  {
  }

  lemma FenceQuiet(s: Hub, id: Id, plan: Plan)
    requires FenceInv(s)
    ensures Quiet(s, DoFence(s, id, plan))
  {
  }

  lemma RequestQuiet(s: Hub, a: HandshakeStep)
    requires FenceInv(s)
    requires a.CancelReservation? || a.Recheck? || a.Verify? || a.Finish? || a.DeliverAck?
    ensures Quiet(s, DoHandshake(s, a))
  {
    hide DoReserve, DoFence, DoCommit, DoMigrate, AckMatches, Preflight, Live;
  }

  lemma HandshakePreserves(s: Hub, a: HandshakeStep)
    requires FenceInv(s) && (a.Commit? ==> s.net.closing.None?)
    ensures FenceInv(DoHandshake(s, a))
  {
    hide DoReserve, DoCancel, DoFence, DoRecheck, DoDeliver, DoVerify, DoCommit, DoFinish, DoMigrate;
    match a {
      case Commit(id) => CommitPreserves(s, id);
      case CloseCommitted => WeakensPreserves(s, DoHandshake(s, a));
      case Migrate(id, device, project, actor) => MigratePreserves(s, id, device, project, actor);
      case Reserve(id, plan, generation) => ReserveQuiet(s, id, plan, generation); QuietPreserves(s, DoHandshake(s, a));
      case Fence(id, plan) => FenceQuiet(s, id, plan); QuietPreserves(s, DoHandshake(s, a));
      case _ => RequestQuiet(s, a); QuietPreserves(s, DoHandshake(s, a));
    }
  }

  /** Every action keeps the fence, the transaction of a commit and the close after it included. */
  lemma StepPreserves(s: Hub, a: Action)
    requires FenceInv(s)
    ensures FenceInv(Apply(s, a))
  {
    hide FenceInv, DoWorld, DoLink, DoDispatch, DoResult, DoScope, DoHandshake;
    if s.net.closing.Some? && NeedsLock(a) { return; }
    match a {
      case World(x) => WorldPreserves(s, x);
      case Link(x) => LinkPreserves(s, x);
      case Dispatching(x) => DispatchPreserves(s, x);
      case Result(x) => ResultPreserves(s, x);
      case Scoping(x) => ScopePreserves(s, x);
      case Handshaking(x) => HandshakePreserves(s, x);
    }
  }

  lemma RunKeepsFence(s: Hub, actions: seq<Action>)
    requires FenceInv(s)
    ensures FenceInv(Run(s, actions))
  {
    hide Apply, FenceInv;
    if actions != [] {
      RunKeepsFence(s, actions[..|actions| - 1]);
      StepPreserves(Run(s, actions[..|actions| - 1]), actions[|actions| - 1]);
    }
  }
}
