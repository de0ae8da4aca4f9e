/** What becomes of sockets: which steps end a device's current connection, close a socket, or enable it, and
    what a stopped Hub still does. */
module Connections {
  import opened StageTypes
  import opened AssignmentCommits
  import opened HubMachine
  import opened CommandFence
  import opened FenceTheorems

  // ---------------------------------------------------------------- what dispatches and handshakes leave alone

  /** No socket comes or goes, and no report of a device is taken. */
  ghost predicate StaysConnected(s: Hub, n: Hub) {
    && n.net.current == s.net.current && n.net.stopped == s.net.stopped && n.net.sockets.Keys == s.net.sockets.Keys
    && n.work.scopeReads == s.work.scopeReads && n.work.answers == s.work.answers
  }

  lemma StagesStayConnected(s: Hub, c: Id, d: Dispatch)
    ensures StaysConnected(s, SetDispatch(s, c, d)) && StaysConnected(s, EndDispatch(s, c))
  {
  }

  lemma CheckStaysConnected(s: Hub, c: Id)
    ensures StaysConnected(s, DoCheck(s, c))
  {
    hide ScopeMay, SetDispatch, EndDispatch;
    if c in s.work.dispatches { StagesStayConnected(s, c, s.work.dispatches[c].(stage := Checked)); }
  }

  lemma BindStaysConnected(s: Hub, c: Id, capable: bool)
    ensures StaysConnected(s, DoBind(s, c, capable))
  {
    hide CanBind;
  }

  lemma SendStaysConnected(s: Hub, c: Id, delivered: bool)
    ensures StaysConnected(s, DoSend(s, c, delivered))
  {
    hide FrameOf, Unbound;
  }

  lemma DispatchStaysConnected(s: Hub, a: DispatchStep)
    ensures StaysConnected(s, DoDispatch(s, a))
  {
    hide DeviceMay, StandsFor, Fresh, DoCheck, DoBind, DoSend, Complete;
    match a {
      case Check(c) => CheckStaysConnected(s, c);
      case Bind(c, capable) => BindStaysConnected(s, c, capable);
      case Send(c, delivered) => SendStaysConnected(s, c, delivered);
      case _ =>
    }
  }

  lemma BlackoutStaysConnected(s: Hub, id: Id, plan: Plan)
    requires plan.kind == Blackout
    ensures StaysConnected(s, DoFence(s, id, plan))
  {
    hide Live, ReservationCurrent, NoPending, Excluded;
  }

  lemma FenceStaysConnected(s: Hub, id: Id, plan: Plan)
    requires plan.kind != Blackout
    ensures StaysConnected(s, DoFence(s, id, plan))
  {
    hide Live, ReservationCurrent, NoPending, Excluded;
  }

  lemma HandshakeStaysConnected(s: Hub, a: HandshakeStep)
    ensures StaysConnected(s, DoHandshake(s, a))
  {
    hide ReserveIntent, CancelIntent, MigrateLegacy, Preflight, AckMatches, Live, DropPending, ReservationCurrent;
    hide DoFence, CommitTables;
    if a.Fence? {
      if a.plan.kind == Blackout {
        BlackoutStaysConnected(s, a.id, a.plan);
      } else {
        FenceStaysConnected(s, a.id, a.plan);
      }
    }
  }

  // ---------------------------------------------------------------- the current socket of a device

  /** The device's current socket k goes: it unregisters itself, a new one displaces it, or the Hub stops or
      restarts. */
  predicate Ousts(a: Action, device: Id, k: SocketId) {
    a.Link? && (a.link == Unregister(k) || (a.link.Register? && a.link.device == device) || a.link.Stop? ||
                a.link.Restart?)
  }

  lemma CurrentStays(s: Hub, a: Action, device: Id)
    requires WiredSockets(s) && device in s.net.current && !Ousts(a, device, s.net.current[device])
    ensures var n := Apply(s, a);
            device in n.net.current && n.net.current[device] == s.net.current[device]
  {
    hide NeedsLock, DoDispatch, DoResult, DoScope, DoHandshake, DoWorld, DoHello;
    match a {
      case Link(x) => HelloLeavesNet(s, x);
      case _ => InnerLeavesCurrent(s, a);
    }
  }

  lemma HelloLeavesNet(s: Hub, a: LinkStep)
    ensures a.HelloV1? || a.HelloV2? ==> DoLink(s, a).net == s.net
  {
  }

  lemma ScopeLeavesCurrent(s: Hub, a: ScopeStep)
    ensures DoScope(s, a).net.current == s.net.current && DoScope(s, a).net.stopped == s.net.stopped
  {
    hide ScopeAuthoritative, ScopeReported;
  }

  lemma InnerLeavesCurrent(s: Hub, a: Action)
    requires !a.Link?
    ensures Apply(s, a).net.current == s.net.current && Apply(s, a).net.stopped == s.net.stopped
  {
    hide DoWorld, DoDispatch, DoResult, DoScope, DoHandshake, NeedsLock;
    match a {
      case World(x) => WorldLeavesNet(s, x);
      case Dispatching(x) => DispatchStaysConnected(s, x);
      case Result(x) => ResultLeavesNet(s, x);
      case Scoping(x) => ScopeLeavesCurrent(s, x);
      case Handshaking(x) => HandshakeStaysConnected(s, x);
    }
  }

  lemma WorldLeavesNet(s: Hub, a: WorldStep)
    ensures DoWorld(s, a).net == s.net
  {
  }

  /** In every run a device's current socket stays current until it unregisters itself or is displaced by a
      newer one, or the Hub stops or restarts. */
  lemma {:induction false} CurrentUntilOusted(env: Env, generation: int, past: seq<Action>, future: seq<Action>,
                                              device: Id)
    requires device in Run(Init(env, generation), past).net.current
    requires forall i | 0 <= i < |future| :: !Ousts(future[i], device,
                                                    Run(Init(env, generation), past).net.current[device])
    ensures var s := Run(Init(env, generation), past);
            var n := Run(s, future);
            device in n.net.current && n.net.current[device] == s.net.current[device]
  {
    hide Apply, ScopesExact, BoundToScope, Ousts;
    var s := Run(Init(env, generation), past);
    if future != [] {
      var before := future[..|future| - 1];
      CurrentUntilOusted(env, generation, past, before, device);
      InitKeepsFence(env, generation);
      RunKeepsFence(Init(env, generation), past);
      RunKeepsFence(s, before);
      CurrentStays(Run(s, before), future[|future| - 1], device);
    }
  }

  /** And these steps do end it: only the socket itself can unregister as current one. */
  lemma OustedGoes(s: Hub, k: SocketId)
    requires k in s.net.sockets && s.net.closing.None?
    ensures var n := Apply(s, Link(Unregister(k)));
            var device := s.net.sockets[k].device;
            && (device in s.net.current && s.net.current[device] == k ==> n.net.current == s.net.current - {device})
            && (!(device in s.net.current && s.net.current[device] == k) ==> n.net.current == s.net.current)
            && n.net.sockets == s.net.sockets
  {
  }

  /** A known device connects whenever the Hub runs and a generation is left: the new socket is current, open
      and enabled for nothing; the one it displaces stays as it is. */
  lemma NewSocketIsCurrent(s: Hub, k: SocketId, device: Id, v2: bool)
    requires k !in s.net.sockets && device in s.t.devices && s.net.closing.None?
    ensures var n := Apply(s, Link(Register(k, device, v2)));
            if !s.net.stopped && (if v2 then s.t.generation < MAX_GENERATION else s.net.v1Generation < MAX_INT64) then
              && n.net.current == s.net.current[device := k] && n.net.stopped == s.net.stopped
              && k in n.net.sockets && n.net.sockets[k].device == device && n.net.sockets[k].v2 == v2
              && n.net.sockets[k].open && !n.net.sockets[k].enabled
              && (v2 ==> s.t.generation < n.net.sockets[k].generation == n.t.generation)
              && (!v2 ==> s.net.v1Generation < n.net.sockets[k].generation == n.net.v1Generation)
              && forall j | j in s.net.sockets :: j in n.net.sockets && n.net.sockets[j] == s.net.sockets[j]
            else n == s
  {
  }

  // ---------------------------------------------------------------- a stopped Hub

  lemma StoppedStays(s: Hub, a: Action)
    requires s.net.stopped && s.net.current == map[] && !(a.Link? && a.link.Restart?)
    ensures Apply(s, a).net.stopped && Apply(s, a).net.current == map[]
  {
    hide NeedsLock, DoDispatch, DoResult, DoScope, DoHandshake, DoWorld, DoHello;
    match a {
      case Link(x) => HelloLeavesNet(s, x);
      case _ => InnerLeavesCurrent(s, a);
    }
  }

  /** A stopped Hub has no current socket until it restarts, whatever connects or is asked for. */
  lemma {:induction false} StoppedUntilRestart(s: Hub, future: seq<Action>)
    requires s.net.closing.None? && future != [] && future[0] == Link(Stop)
    requires forall i | 0 <= i < |future| :: !(future[i].Link? && future[i].link.Restart?)
    ensures Run(s, future).net.stopped && Run(s, future).net.current == map[]
  {
    hide Apply;
    if |future| == 1 {
      assert future == [Link(Stop)];
      RunOne(s, Link(Stop));
      StopEmpties(s);
    } else {
      StoppedUntilRestart(s, future[..|future| - 1]);
      StoppedStays(Run(s, future[..|future| - 1]), future[|future| - 1]);
    }
  }

  lemma StopEmpties(s: Hub)
    requires s.net.closing.None?
    ensures Apply(s, Link(Stop)).net.stopped && Apply(s, Link(Stop)).net.current == map[]
  {
  }

  // ---------------------------------------------------------------- what happens to a socket

  /** The steps that close socket k. */
  ghost predicate Closes(s: Hub, a: Action, k: SocketId) {
    || a == Link(CloseSocket(k))
    || a == Link(Restart)
    || (a == Handshaking(CloseCommitted) && s.net.closing == Some(k))
    || (a.Dispatching? && a.dispatch.Send? && !a.dispatch.delivered && a.dispatch.command in s.work.dispatches &&
        s.work.dispatches[a.dispatch.command].stage.Bound? && s.work.dispatches[a.dispatch.command].stage.socket == k)
  }

  /** The scope acknowledgment under way enables socket k. */
  ghost predicate Enables(s: Hub, a: Action, k: SocketId) {
    && a == Scoping(EnableScope(k)) && s.net.closing.None? && k in s.work.scopeReads
    && !s.net.stopped && k in s.net.sockets && s.net.sockets[k].open
    && s.net.sockets[k].device in s.net.current && s.net.current[s.net.sockets[k].device] == k
    && s.net.sockets[k].device !in s.net.transitions
  }

  /** A socket keeps its device, protocol and generation; it is open until a step closes it, and enabled for
      the scope of its last scope acknowledgment. */
  ghost predicate SocketGoesOn(s: Hub, a: Action, n: Hub, k: SocketId)
    requires k in s.net.sockets
  {
    && k in n.net.sockets
    && n.net.sockets[k].device == s.net.sockets[k].device && n.net.sockets[k].v2 == s.net.sockets[k].v2
    && n.net.sockets[k].generation == s.net.sockets[k].generation
    && (n.net.sockets[k].open <==> s.net.sockets[k].open && !Closes(s, a, k))
    && (Enables(s, a, k) ==> n.net.sockets[k].enabled && n.net.sockets[k].scope == s.work.scopeReads[k])
    && (!Enables(s, a, k) ==>
          n.net.sockets[k].enabled == s.net.sockets[k].enabled && n.net.sockets[k].scope == s.net.sockets[k].scope)
  }

  lemma LinkGoesOn(s: Hub, a: LinkStep, k: SocketId)
    requires k in s.net.sockets
    ensures SocketGoesOn(s, Link(a), DoLink(s, a), k)
  {
    hide UpsertV1, RegisterV2;
  }

  lemma SendGoesOn(s: Hub, c: Id, delivered: bool, k: SocketId)
    requires k in s.net.sockets && BoundToScope(s)
    ensures SocketGoesOn(s, Dispatching(Send(c, delivered)), DoSend(s, c, delivered), k)
  {
    hide FrameOf, HoldsScopeOf;
  }

  lemma DispatchGoesOn(s: Hub, a: DispatchStep, k: SocketId)
    requires k in s.net.sockets && BoundToScope(s)
    ensures SocketGoesOn(s, Dispatching(a), DoDispatch(s, a), k)
  {
    hide DoSend, CanBind, BoundToScope;
    if a.Send? {
      SendGoesOn(s, a.command, a.delivered, k);
    } else if !a.Bind? {
      CountersMove(s, a);
    }
  }

  lemma ScopeGoesOn(s: Hub, a: ScopeStep, k: SocketId)
    requires k in s.net.sockets && (a.EnableScope? ==> s.net.closing.None?)
    ensures SocketGoesOn(s, Scoping(a), DoScope(s, a), k)
  {
    hide ScopeAuthoritative, ScopeReported, RecordAck;
  }

  lemma HandshakeGoesOn(s: Hub, a: HandshakeStep, k: SocketId)
    requires k in s.net.sockets
    ensures SocketGoesOn(s, Handshaking(a), DoHandshake(s, a), k)
  {
    hide ReserveIntent, CancelIntent, MigrateLegacy, Preflight, AckMatches, Live, DropPending, ReservationCurrent;
    hide DoFence, CommitTables;
    if a.Fence? { FenceLeavesSockets(s, a.id, a.plan); }
  }

  lemma FenceLeavesSockets(s: Hub, id: Id, plan: Plan)
    ensures DoFence(s, id, plan).net.sockets == s.net.sockets
  {
    hide Live, ReservationCurrent, NoPending, Excluded;
  }

  /** What one step does to one socket. */
  lemma SocketsGoOn(s: Hub, a: Action, k: SocketId)
    requires k in s.net.sockets && FenceInv(s)
    ensures SocketGoesOn(s, a, Apply(s, a), k)
  {
    hide DoWorld, DoLink, DoDispatch, DoResult, DoScope, DoHandshake, WiredSockets, ScopesExact, BoundToScope;
    if s.net.closing.Some? && NeedsLock(a) { return; }
    match a {
      case World(x) => WorldLeavesNet(s, x);
      case Link(x) => LinkGoesOn(s, x, k);
      case Dispatching(x) => DispatchGoesOn(s, x, k);
      case Result(x) => ResultLeavesNet(s, x);
      case Scoping(x) => ScopeGoesOn(s, x, k);
      case Handshaking(x) => HandshakeGoesOn(s, x, k);
    }
  }

  /** So in every run, each socket goes on like this. */
  lemma SocketsInRunsGoOn(env: Env, generation: int, actions: seq<Action>, a: Action, k: SocketId)
    requires k in Run(Init(env, generation), actions).net.sockets
    ensures SocketGoesOn(Run(Init(env, generation), actions), a, Run(Init(env, generation), actions + [a]), k)
  {
    hide Apply, FenceInv, SocketGoesOn;
    InitKeepsFence(env, generation);
    RunKeepsFence(Init(env, generation), actions);
    SocketsGoOn(Run(Init(env, generation), actions), a, k);
    assert (actions + [a])[..|actions|] == actions;
  }
}
