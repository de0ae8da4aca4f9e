/** Two runs in which a frame is stale, so that the exceptions of the fence are needed. A second request
    with the idempotency key of a running command is handed that command; when its caller times out, the
    row ends before the first Dispatch has written the frame, and no longer holds off an assignment
    commit. The frame then reaches a displaced socket that is still open, or the current socket between
    the transaction of a commit and the close that follows it. */
module StaleFrame {
  import opened StageTypes
  import opened AssignmentCommits
  import opened HubMachine
  import opened CommandFence

  const QUIET_LASER := LaserObservation(true, true, true, true, Tracked, false, false, false)

  function SafeAnswer(id: Id, plan: Plan, generation: int): Ack {
    Ack(id, plan.device, NO_ID, NO_ID, plan.epoch, generation, plan.challenge, NO_ID, true, [], QUIET_LASER)
  }

  /** A tablet handshake up to the device's answer. */
  function Request(id: Id, plan: Plan, socket: SocketId, generation: int): seq<Action> {
    [Handshaking(Fence(id, plan)), Handshaking(Recheck(id)),
     Handshaking(DeliverAck(socket, TabletMove, SafeAnswer(id, plan, generation)))]
  }

  function TabletHandshake(id: Id, plan: Plan, socket: SocketId, generation: int): seq<Action> {
    Request(id, plan, socket, generation) +
    [Handshaking(Commit(id)), Handshaking(CloseCommitted), Handshaking(Finish(id))]
  }

  // ---------------------------------------------------------------- a handshake with a tablet

  /** The device's live v2 socket, with no handshake in its way. */
  ghost predicate Idle(s: Hub, device: Id, k: SocketId) {
    && device in s.net.current && s.net.current[device] == k && Live(s.net, k)
    && s.net.sockets[k].device == device && s.net.sockets[k].v2 && 0 < s.net.sockets[k].generation
    && s.net.transitions == {} && s.net.closing == None && s.net.probes == {}
    && s.work.pending == map[] && s.work.handshakes == map[]
  }

  ghost predicate Movable(s: Hub, id: Id, plan: Plan) {
    && plan.kind == TabletMove && id != NO_ID && plan.actor != NO_ID && plan.challenge != NO_ID
    && TabletPreflight(s.t, plan.device, plan.fromProject, plan.fromSnapshot, plan.toProject, plan.toSnapshot,
                       plan.epoch)
    && plan.toProject != NO_ID
  }

  function Answered(s: Hub, id: Id, plan: Plan, k: SocketId): Hub
    requires k in s.net.sockets
  {
    var g := s.net.sockets[k].generation;
    s.(net := s.net.(transitions := {plan.device}),
       work := s.work.(pending := map[PendingKey(TabletMove, plan.device) := id],
                       handshakes := map[id := Handshake(plan, k, g, Fenced, Some(NO_ID),
                                                         Some(SafeAnswer(id, plan, g)))]),
       trace := s.trace.(evidence := s.trace.evidence +
                         [HandshakeReport(TabletMove, plan.device, g, SafeAnswer(id, plan, g))]))
  }

  lemma FenceAndAnswer(s: Hub, id: Id, plan: Plan, k: SocketId)
    requires Idle(s, plan.device, k) && Movable(s, id, plan)
    ensures var g := s.net.sockets[k].generation;
            var s1 := DoFence(s, id, plan);
            var s2 := DoRecheck(s1, id);
            DoDeliver(s2, k, TabletMove, SafeAnswer(id, plan, g)) == Answered(s, id, plan, k)
    ensures s.net.closing == DoFence(s, id, plan).net.closing == DoRecheck(DoFence(s, id, plan), id).net.closing
  {
  }

  lemma RequestAnswered(s: Hub, id: Id, plan: Plan, k: SocketId)
    requires Idle(s, plan.device, k) && Movable(s, id, plan)
    ensures Run(s, Request(id, plan, k, s.net.sockets[k].generation)) == Answered(s, id, plan, k)
  {
    hide Run, DoFence, DoRecheck, DoDeliver, Movable;
    FenceAndAnswer(s, id, plan, k);
    var g := s.net.sockets[k].generation;
    RunThree(s, Handshaking(Fence(id, plan)), Handshaking(Recheck(id)),
             Handshaking(DeliverAck(k, TabletMove, SafeAnswer(id, plan, g))));
  }

  /** The tables and maps are as in s, apart from the moved row and its audit. */
  ghost predicate MovedFrom(s: Hub, n: Hub, plan: Plan) {
    && n.t.assignments == s.t.assignments[plan.device := Assignment(Active, plan.toProject, plan.toSnapshot,
                                                                    plan.epoch + 1)]
    && |n.t.log| == |s.t.log| + 1 && n.t.devices == s.t.devices && n.t.commands == s.t.commands && n.t.env == s.t.env
    && n.t.generation == s.t.generation
    && n.work.dispatches == s.work.dispatches && n.work.inflight == s.work.inflight
    && n.work.interrupted == s.work.interrupted && n.work.scopeReads == s.work.scopeReads
    && n.work.callers == s.work.callers && n.work.answers == s.work.answers
    && n.trace.frames == s.trace.frames
  }

  lemma CommitMoves(s: Hub, id: Id, plan: Plan, k: SocketId)
    requires Idle(s, plan.device, k) && Movable(s, id, plan)
    ensures var n := DoCommit(Answered(s, id, plan, k), id);
            MovedFrom(s, n, plan) && n.net == s.net.(transitions := {plan.device}, closing := Some(k)) &&
            n.work.pending == map[PendingKey(TabletMove, plan.device) := id] &&
            n.work.handshakes.Keys == {id} && n.work.handshakes[id].plan == plan
  {
  }

  lemma CloseAndFinish(s: Hub, id: Id, plan: Plan, k: SocketId, m: Hub)
    requires Idle(s, plan.device, k) && plan.kind == TabletMove
    requires MovedFrom(s, m, plan) && m.net == s.net.(transitions := {plan.device}, closing := Some(k))
    requires m.work.pending == map[PendingKey(TabletMove, plan.device) := id]
    requires m.work.handshakes.Keys == {id} && m.work.handshakes[id].plan == plan
    ensures var n := DoFinish(DoCloseCommitted(m), id);
            MovedFrom(s, n, plan) && n.net == s.net.(sockets := Shut(s.net.sockets, k)) &&
            n.work.pending == map[] && n.work.handshakes == map[]
    ensures DoCloseCommitted(m).net.closing == None
  {
    var n := DoFinish(DoCloseCommitted(m), id);
    assert forall x :: x !in n.work.handshakes;
    assert forall x :: x !in n.work.pending;
    assert {plan.device} - {plan.device} == {};
  }

  /** An idle tablet that answers the request is moved, and its socket closed. */
  lemma TabletHandshakeMoves(s: Hub, id: Id, plan: Plan, k: SocketId)
    requires Idle(s, plan.device, k) && Movable(s, id, plan)
    ensures var n := Run(s, TabletHandshake(id, plan, k, s.net.sockets[k].generation));
            MovedFrom(s, n, plan) && n.net == s.net.(sockets := Shut(s.net.sockets, k)) &&
            n.work.pending == map[] && n.work.handshakes == map[]
  {
    hide Run, TabletPreflight, Request, MovedFrom, DoCommit, DoCloseCommitted, DoFinish;
    hide DoLink, DoScope, DoWorld, DoResult, DoDispatch;
    var g := s.net.sockets[k].generation;
    var last := [Handshaking(Commit(id)), Handshaking(CloseCommitted), Handshaking(Finish(id))];
    RunConcat(s, Request(id, plan, k, g), last);
    RequestAnswered(s, id, plan, k);
    CommitMoves(s, id, plan, k);
    CloseAndFinish(s, id, plan, k, DoCommit(Answered(s, id, plan, k), id));
    RunThree(Answered(s, id, plan, k), last[0], last[1], last[2]);
    assert last == [last[0], last[1], last[2]];
  }

  // ---------------------------------------------------------------- the common part of both runs

  const TABLET: Device := Device(V2, TabletProfile, TabletPlayer, NO_ID, true)
  const WORLD: Env := Env(0, {}, {}, {}, map[11 := Snapshot(1, true, map[], {}), 12 := Snapshot(1, true, map[], {})])
  const TO_FIRST: Plan := Plan(TabletMove, 5, NO_ID, NO_ID, 1, 11, 1, 9, 7)
  const TO_SECOND: Plan := Plan(TabletMove, 5, 1, 11, 1, 12, 2, 9, 8)

  function DarkReport(generation: int): ScopeReport {
    ScopeReport(generation, true, true, [], NO_ID, QUIET_LASER)
  }

  /** Enrol the tablet and connect it. */
  const ENROL: seq<Action> := [Link(HelloV2(5, TabletProfile, TabletPlayer)), Link(Register(1, 5, true))]

  /** Reconnect on socket 2 and enable commands for the first snapshot. */
  const ENABLE: seq<Action> :=
    [Link(Register(2, 5, true)), Scoping(ReadScope(2, Scope(1, 11, 2), DarkReport(2))), Scoping(EnableScope(2))]

  /** Dispatch command 50, with idempotency key 4, up to its write. */
  const PREPARE: seq<Action> :=
    [Dispatching(Ask(50, 5, 1, 11, 4)), Dispatching(Check(50)), Dispatching(Find(50))]
  const BIND: seq<Action> := [Dispatching(Store(50)), Dispatching(Bind(50, true))]

  /** The same request again: it is handed command 50, and its caller times out. */
  const REPEAT: seq<Action> :=
    [Dispatching(Ask(60, 5, 1, 11, 4)), Dispatching(Check(60)), Dispatching(Duplicate(60, 50))]
  const TIMEOUT: seq<Action> := [Result(InterruptCaller(50, TimedOut))]

  const COMMON: seq<Action> := ENROL + TabletHandshake(100, TO_FIRST, 1, 1) + ENABLE + PREPARE + BIND + REPEAT + TIMEOUT

  /** What a state of the runs holds; log entries and evidence do not matter here. */
  datatype View = View(row: Assignment, commands: map<Id, Command>, generation: int, sockets: map<SocketId, Socket>,
                       dispatches: map<Id, Dispatch>, inflight: map<Id, SocketId>, callers: set<Id>, moves: nat)

  ghost predicate Stands(s: Hub, v: View) {
    && s.t.devices == map[5 := TABLET] && s.t.assignments == map[5 := v.row] && s.t.commands == v.commands
    && s.t.generation == v.generation && s.t.env == WORLD && |s.t.log| == v.moves
    && s.net == Net(false, v.sockets, map[5 := v.generation], {}, 0, None, {})
    && s.work == Work(v.dispatches, v.inflight, map[], map[], map[], map[], v.callers, map[])
    && s.trace.frames == []
  }

  const FIRST: Assignment := Assignment(Active, 1, 11, 2)
  const SECOND: Assignment := Assignment(Active, 1, 12, 3)
  const SHUT_ONE: Socket := Socket(5, true, 1, false, false, NO_SCOPE)
  const OPEN_ONE: Socket := Socket(5, true, 1, true, false, NO_SCOPE)
  const OPEN_TWO: Socket := Socket(5, true, 2, true, false, NO_SCOPE)
  const ENABLED_TWO: Socket := Socket(5, true, 2, true, true, Scope(1, 11, 2))
  const OPEN_THREE: Socket := Socket(5, true, 3, true, false, NO_SCOPE)
  const TWO: map<SocketId, Socket> := map[1 := SHUT_ONE, 2 := ENABLED_TWO]
  const THREE: map<SocketId, Socket> := map[1 := SHUT_ONE, 2 := ENABLED_TWO, 3 := OPEN_THREE]

  const PREPARED: map<Id, Dispatch> := map[50 := Dispatch(5, 1, 11, 4, Cleared)]
  const BOUND: map<Id, Dispatch> := map[50 := Dispatch(5, 1, 11, 4, Bound(2, 2, 1))]
  const RUNNING: map<Id, Command> := map[50 := Command(5, 1, 11, 4, Accepted)]
  const ENDED: map<Id, Command> := map[50 := Command(5, 1, 11, 4, TimedOut)]

  const NEW_VIEW: View := View(Assignment(Unassigned, NO_ID, NO_ID, 1), map[], 1, map[1 := OPEN_ONE], map[], map[],
                               {}, 0)
  const FIRST_VIEW: View := View(FIRST, map[], 1, map[1 := SHUT_ONE], map[], map[], {}, 1)
  const ENABLED_VIEW: View := View(FIRST, map[], 2, TWO, map[], map[], {}, 1)
  const PREPARED_VIEW: View := ENABLED_VIEW.(dispatches := PREPARED)
  const BOUND_VIEW: View := ENABLED_VIEW.(commands := RUNNING, dispatches := BOUND, inflight := map[50 := 2])
  const HANDED_VIEW: View := BOUND_VIEW.(callers := {50})
  const ENDED_VIEW: View := HANDED_VIEW.(commands := ENDED)
  const THREE_VIEW: View := ENDED_VIEW.(generation := 3, sockets := THREE)

  lemma Enrolled()
    ensures Stands(Run(Init(WORLD, 0), ENROL), NEW_VIEW)
  {
    RunTwo(Init(WORLD, 0), ENROL[0], ENROL[1]);
  }

  lemma FirstMove(s: Hub)
    requires Stands(s, NEW_VIEW)
    ensures Stands(Run(s, TabletHandshake(100, TO_FIRST, 1, 1)), FIRST_VIEW)
  {
    hide Run, TabletHandshake;
    TabletHandshakeMoves(s, 100, TO_FIRST, 1);
    assert Shut(map[1 := OPEN_ONE], 1) == map[1 := SHUT_ONE];
  }

  lemma Reconnects(s: Hub)
    requires Stands(s, FIRST_VIEW)
    ensures Stands(DoRegister(s, 2, 5, true), FIRST_VIEW.(generation := 2,
                                                          sockets := map[1 := SHUT_ONE, 2 := OPEN_TWO]))
  {
  }

  lemma Enables(s: Hub)
    requires Stands(s, FIRST_VIEW.(generation := 2, sockets := map[1 := SHUT_ONE, 2 := OPEN_TWO]))
    ensures Stands(DoEnable(DoReadScope(s, 2, Scope(1, 11, 2), DarkReport(2)), 2), ENABLED_VIEW)
    ensures DoReadScope(s, 2, Scope(1, 11, 2), DarkReport(2)).net.closing == None
  {
  }

  lemma EnabledOnTwo(s: Hub)
    requires Stands(s, FIRST_VIEW)
    ensures Stands(Run(s, ENABLE), ENABLED_VIEW)
  {
    hide Run, Stands, DoRegister, DoReadScope, DoEnable;
    RunThree(s, ENABLE[0], ENABLE[1], ENABLE[2]);
    assert ENABLE == [ENABLE[0], ENABLE[1], ENABLE[2]];
    assert s.net.closing == None by { StandsUnlocked(s, FIRST_VIEW); }
    Reconnects(s);
    StandsUnlocked(DoRegister(s, 2, 5, true), FIRST_VIEW.(generation := 2,
                                                          sockets := map[1 := SHUT_ONE, 2 := OPEN_TWO]));
    Enables(DoRegister(s, 2, 5, true));
  }

  lemma StandsUnlocked(s: Hub, v: View)
    requires Stands(s, v)
    ensures s.net.closing == None
  {
  }

  lemma Prepares(s: Hub)
    requires Stands(s, ENABLED_VIEW)
    ensures Stands(Run(s, PREPARE), PREPARED_VIEW)
  {
    hide Run, DoLink, DoScope, DoHandshake, DoWorld, DoResult;
    hide DoDuplicate, DoStore, DoAbort, DoBind, DoSend, DoFail;
    RunThree(s, PREPARE[0], PREPARE[1], PREPARE[2]);
    assert PREPARE == [PREPARE[0], PREPARE[1], PREPARE[2]];
  }

  lemma Binds(s: Hub)
    requires Stands(s, PREPARED_VIEW)
    ensures Stands(Run(s, BIND), BOUND_VIEW)
  {
    hide Run, DoLink, DoScope, DoHandshake, DoWorld, DoResult;
    hide DoAsk, DoCheck, DoFind, DoDuplicate, DoAbort, DoSend, DoFail;
    RunTwo(s, BIND[0], BIND[1]);
  }

  /** The repeated request on its way through the authority checks. */
  const ASKED_AGAIN: View := BOUND_VIEW.(dispatches := BOUND[60 := Dispatch(5, 1, 11, 4, Asked(V2))])
  const AGAIN: View := BOUND_VIEW.(dispatches := BOUND[60 := Dispatch(5, 1, 11, 4, Checked)])

  lemma RepeatIsAsked(s: Hub)
    requires Stands(s, BOUND_VIEW)
    ensures Stands(DoAsk(s, 60, 5, 1, 11, 4), ASKED_AGAIN)
  {
  }

  lemma RepeatIsAllowed(s: Hub)
    requires Stands(s, ASKED_AGAIN)
    ensures Stands(DoCheck(s, 60), AGAIN)
  {
  }

  lemma RepeatIsChecked(s: Hub)
    requires Stands(s, BOUND_VIEW)
    ensures Stands(Run(s, REPEAT[..2]), AGAIN)
  {
    hide Run, Stands, DoAsk, DoCheck;
    RunTwo(s, REPEAT[0], REPEAT[1]);
    assert REPEAT[..2] == [REPEAT[0], REPEAT[1]];
    RepeatIsAsked(s);
    RepeatIsAllowed(DoAsk(s, 60, 5, 1, 11, 4));
  }

  lemma RepeatIsHandedOver(s: Hub)
    requires Stands(s, AGAIN)
    ensures Stands(Run(s, [REPEAT[2]]), HANDED_VIEW)
  {
    hide Run, DoLink, DoScope, DoHandshake, DoWorld, DoResult;
    hide DoAsk, DoCheck, DoFind, DoStore, DoAbort, DoBind, DoSend, DoFail;
    RunOne(s, REPEAT[2]);
    var n := Run(s, [REPEAT[2]]);
    assert n.work.dispatches == BOUND;
    assert n.work.callers == {50};
  }

  lemma Repeats(s: Hub)
    requires Stands(s, BOUND_VIEW)
    ensures Stands(Run(s, REPEAT), HANDED_VIEW)
  {
    hide Run, Stands;
    RunConcat(s, REPEAT[..2], [REPEAT[2]]);
    assert REPEAT == REPEAT[..2] + [REPEAT[2]];
    RepeatIsChecked(s);
    RepeatIsHandedOver(Run(s, REPEAT[..2]));
  }

  lemma TimesOut(s: Hub)
    requires Stands(s, HANDED_VIEW)
    ensures Stands(Run(s, TIMEOUT), ENDED_VIEW)
  {
    hide Run, DoLink, DoScope, DoHandshake, DoWorld, DoDispatch;
    RunOne(s, TIMEOUT[0]);
  }

  lemma CommonRun()
    ensures Stands(Run(Init(WORLD, 0), COMMON), ENDED_VIEW)
  {
    hide Apply, Run, TabletHandshake, Stands;
    var s := Init(WORLD, 0);
    var first := TabletHandshake(100, TO_FIRST, 1, 1);
    RunConcat(s, ENROL, first);
    RunConcat(s, ENROL + first, ENABLE);
    RunConcat(s, ENROL + first + ENABLE, PREPARE);
    RunConcat(s, ENROL + first + ENABLE + PREPARE, BIND);
    RunConcat(s, ENROL + first + ENABLE + PREPARE + BIND, REPEAT);
    RunConcat(s, ENROL + first + ENABLE + PREPARE + BIND + REPEAT, TIMEOUT);
    Enrolled();
    FirstMove(Run(s, ENROL));
    EnabledOnTwo(Run(s, ENROL + first));
    Prepares(Run(s, ENROL + first + ENABLE));
    Binds(Run(s, ENROL + first + ENABLE + PREPARE));
    Repeats(Run(s, ENROL + first + ENABLE + PREPARE + BIND));
    TimesOut(Run(s, ENROL + first + ENABLE + PREPARE + BIND + REPEAT));
    assert COMMON == ENROL + first + ENABLE + PREPARE + BIND + REPEAT + TIMEOUT;
  }

  // ---------------------------------------------------------------- a displaced socket

  const DISPLACED_RUN: seq<Action> :=
    COMMON + [Link(Register(3, 5, true))] + TabletHandshake(101, TO_SECOND, 3, 3) + [Dispatching(Send(50, true))]

  lemma Displaces(s: Hub)
    requires Stands(s, ENDED_VIEW)
    ensures Stands(Run(s, [Link(Register(3, 5, true))]), THREE_VIEW)
  {
    hide Run;
    RunOne(s, Link(Register(3, 5, true)));
  }

  lemma SecondMove(s: Hub)
    requires Stands(s, THREE_VIEW)
    ensures Stands(Run(s, TabletHandshake(101, TO_SECOND, 3, 3)),
                   THREE_VIEW.(row := SECOND, moves := 2, sockets := Shut(THREE, 3)))
  {
    hide Run, TabletHandshake;
    TabletHandshakeMoves(s, 101, TO_SECOND, 3);
  }

  lemma WritesOnDisplaced(s: Hub)
    requires Stands(s, THREE_VIEW.(row := SECOND, moves := 2, sockets := Shut(THREE, 3)))
    ensures Run(s, [Dispatching(Send(50, true))]).trace.frames
            == [Frame(50, 5, 1, 11, 2, true, false, false, 1, 2, Some(SECOND))]
  {
    hide Run;
    RunOne(s, Dispatching(Send(50, true)));
  }

  /** The device reconnects, and the handshake on the new socket moves it; the frame of command 50 then
      reaches the displaced socket, which is not closed yet. */
  lemma StaleFrameOnDisplacedSocket()
    ensures Run(Init(WORLD, 0), DISPLACED_RUN).trace.frames
            == [Frame(50, 5, 1, 11, 2, true, false, false, 1, 2, Some(SECOND))]
    ensures !FrameExact(Run(Init(WORLD, 0), DISPLACED_RUN).trace.frames[0])
  {
    hide Apply, Run, TabletHandshake, Stands;
    var s := Init(WORLD, 0);
    var again := [Link(Register(3, 5, true))];
    var move := TabletHandshake(101, TO_SECOND, 3, 3);
    RunConcat(s, COMMON, again);
    RunConcat(s, COMMON + again, move);
    RunConcat(s, COMMON + again + move, [Dispatching(Send(50, true))]);
    CommonRun();
    Displaces(Run(s, COMMON));
    SecondMove(Run(s, COMMON + again));
    WritesOnDisplaced(Run(s, COMMON + again + move));
    assert DISPLACED_RUN == COMMON + again + move + [Dispatching(Send(50, true))];
  }

  // ---------------------------------------------------------------- the current socket

  const WINDOW_RUN: seq<Action> :=
    COMMON + Request(101, TO_SECOND, 2, 2) + [Handshaking(Commit(101)), Dispatching(Send(50, true))]

  lemma WritesInWindow(s: Hub)
    requires Stands(s, ENDED_VIEW)
    ensures var m := DoCommit(Answered(s, 101, TO_SECOND, 2), 101);
            DoSend(m, 50, true).trace.frames == [Frame(50, 5, 1, 11, 2, true, true, true, 1, 2, Some(SECOND))]
  {
    CommitMoves(s, 101, TO_SECOND, 2);
  }

  lemma RunsInWindow(s: Hub)
    requires Stands(s, ENDED_VIEW)
    ensures Run(Run(s, Request(101, TO_SECOND, 2, 2)),
                [Handshaking(Commit(101)), Dispatching(Send(50, true))]).trace.frames
            == [Frame(50, 5, 1, 11, 2, true, true, true, 1, 2, Some(SECOND))]
  {
    hide Run, Request, DoCommit, DoSend, TabletPreflight;
    assert Movable(s, 101, TO_SECOND) by { MovableAgain(s); }
    RequestAnswered(s, 101, TO_SECOND, 2);
    RunTwo(Answered(s, 101, TO_SECOND, 2), Handshaking(Commit(101)), Dispatching(Send(50, true)));
    WritesInWindow(s);
  }

  lemma MovableAgain(s: Hub)
    requires Stands(s, ENDED_VIEW)
    ensures Movable(s, 101, TO_SECOND)
  {
  }

  /** The handshake runs on the socket that command 50 is bound to; its frame is written after the
      transaction and before the close. */
  lemma StaleFrameOnCurrentSocket()
    ensures Run(Init(WORLD, 0), WINDOW_RUN).trace.frames
            == [Frame(50, 5, 1, 11, 2, true, true, true, 1, 2, Some(SECOND))]
    ensures !FrameExact(Run(Init(WORLD, 0), WINDOW_RUN).trace.frames[0])
  {
    hide Run, Apply, Request, Stands;
    var s := Init(WORLD, 0);
    var ask := Request(101, TO_SECOND, 2, 2);
    var last := [Handshaking(Commit(101)), Dispatching(Send(50, true))];
    RunConcat(s, COMMON, ask);
    RunConcat(s, COMMON + ask, last);
    CommonRun();
    RunsInWindow(Run(s, COMMON));
    assert WINDOW_RUN == COMMON + ask + last;
  }
}
