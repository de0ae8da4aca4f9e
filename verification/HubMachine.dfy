/** The Hub as a state machine: its tables, its socket and transition maps, and the program
    counters of every goroutine that takes part in command dispatch or in an assignment handshake.
    One action is one critical section or one SQL transaction; an action whose guard fails leaves
    the state as it is. The commit of an assignment is two actions, its transaction and the close of
    the socket: the runtime lock is held in between, but a frame is written without that lock. */
module HubMachine {
  import opened StageTypes
  import opened AssignmentCommits

  type SocketId = int

  datatype Scope = Scope(project: Id, snapshot: Id, epoch: int)

  const NO_SCOPE := Scope(NO_ID, NO_ID, 0)

  datatype Socket = Socket(device: Id, v2: bool, generation: int, open: bool, enabled: bool, scope: Scope)

  /** Where one Dispatch call stands. A bound one remembers the epoch of its socket's scope and the
      length of the audit log at that moment. */
  datatype Stage =
    | Asked(protocol: Protocol) | Checked | Cleared | Stored
    | Bound(socket: SocketId, epoch: int, since: nat) | Failing

  datatype Dispatch = Dispatch(device: Id, project: Id, snapshot: Id, key: Id, stage: Stage)

  /** How far a socket's receive loop has come with a terminal result. */
  datatype AnswerStage = Allowed | Taken | Recorded

  datatype Answer = Answer(command: Id, status: CommandStatus, stage: AnswerStage)

  datatype HandshakeKind = Blackout | Activation | TabletMove | LaserMove

  datatype PendingKey = PendingKey(kind: HandshakeKind, device: Id)

  /** What the operator asked for, with the drawn challenge. */
  datatype Plan = Plan(kind: HandshakeKind, device: Id, fromProject: Id, fromSnapshot: Id, toProject: Id,
                       toSnapshot: Id, epoch: int, actor: Id, challenge: Id)

  /** A device's answer to a handshake request; every field is the device's own claim. */
  datatype Ack = Ack(id: Id, device: Id, project: Id, snapshot: Id, epoch: int, generation: int, challenge: Id,
                     config: Id, safe: bool, levels: seq<int>, observation: LaserObservation)

  datatype Phase = Reserved | Fenced | Verified | Done

  /** `config` is the plan read by the preflight that runs behind the fence. */
  datatype Handshake = Handshake(plan: Plan, socket: SocketId, generation: int, phase: Phase,
                                 config: Option<Id>, ack: Option<Ack>)

  /** A command.execute frame as written to a socket, with what held at that moment: whether the socket
      was current, whether a commit was about to close it, and the stored row. The command was bound
      for `epoch` when the audit log was `since` long, and written when it was `until` long. */
  datatype Frame = Frame(command: Id, device: Id, project: Id, snapshot: Id, epoch: int, v2: bool,
                         onCurrent: bool, closing: bool, since: nat, until: nat, assignment: Option<Assignment>)

  /** What a scope acknowledgment reports besides the scope itself. */
  datatype ScopeReport = ScopeReport(generation: int, ready: bool, blackout: bool, levels: seq<int>, config: Id,
                                     observation: LaserObservation)

  /** Reports the Hub took from sockets, with the device and generation of the socket itself; a scope report
      also with what the tables said about the device and the world when it was taken. */
  datatype Evidence =
    | EpochReport(device: Id, project: Id, epoch: int, generation: int, levels: seq<int>)
    | HandshakeReport(kind: HandshakeKind, device: Id, generation: int, ack: Ack)
    | ScopeAck(device: Id, generation: int, scope: Scope, report: ScopeReport, row: Device, env: Env)

  /** Guarded by the runtime lock, except that a socket's `open` is its own closed flag. `closing` is
      the socket that a committed handshake is about to close; its goroutine holds the lock until then. */
  datatype Net = Net(stopped: bool, sockets: map<SocketId, Socket>, current: map<Id, SocketId>,
                     transitions: set<Id>, v1Generation: int, closing: Option<SocketId>, probes: set<Id>)

  /** Program counters, and the maps that tie pending work to sockets. `callers` holds the commands
      that a Dispatch has returned to somebody who waits for their result. */
  datatype Work = Work(dispatches: map<Id, Dispatch>, inflight: map<Id, SocketId>, interrupted: map<Id, SocketId>,
                       scopeReads: map<SocketId, Scope>, handshakes: map<Id, Handshake>,
                       pending: map<PendingKey, Id>, callers: set<Id>, answers: map<SocketId, Answer>)

  /** History only: frames written, reports taken, the row each device was enrolled with, and the
      commands that were ended, returned to a duplicate or answered by the device while their own
      Dispatch had not written its frame yet. */
  datatype Trace = Trace(frames: seq<Frame>, evidence: seq<Evidence>, enrolled: map<Id, Assignment>,
                         early: set<Id>, duplicated: set<Id>, answered: set<Id>)

  datatype Hub = Hub(t: Tables, net: Net, work: Work, trace: Trace)

  function Init(env: Env, generation: int): Hub {
    Hub(Tables(map[], map[], [], map[], map[], map[], generation, env),
        Net(false, map[], map[], {}, 0, None, {}),
        Work(map[], map[], map[], map[], map[], map[], {}, map[]),
        Trace([], [], map[], {}, {}, {}))
  }

  /** What the rest of the Hub does to the tables the protocol reads. */
  datatype WorldStep =
    | SetEnvironment(env: Env)
    | Disable(device: Id)

  datatype LinkStep =
    | HelloV1(device: Id, project: Id, profile: Profile, kind: Kind)
    | HelloV2(device: Id, profile: Profile, kind: Kind)
    | Register(socket: SocketId, device: Id, v2: bool)
    | CloseSocket(socket: SocketId)
    | Unregister(socket: SocketId)
    | FailInterrupted(command: Id)
    | Stop
    | Restart

  /** The stages of one Dispatch call. */
  datatype DispatchStep =
    | Ask(command: Id, device: Id, project: Id, snapshot: Id, key: Id)
    | Check(command: Id)
    | Find(command: Id)
    | Duplicate(command: Id, existing: Id)
    | Store(command: Id)
    | Abort(command: Id)
    | Bind(command: Id, capable: bool)
    | Send(command: Id, delivered: bool)
    | GiveUp(command: Id)

  /** What ends commands: the device's own result, in four steps of its receive loop, and a caller
      that is interrupted while it waits. */
  datatype ResultStep =
    | AllowResult(socket: SocketId, command: Id, status: CommandStatus)
    | TakeResult(socket: SocketId)
    | StoreResult(socket: SocketId)
    | Unbind(socket: SocketId)
    | InterruptCaller(command: Id, status: CommandStatus)
    | ReopenCommand(command: Id)

  datatype ScopeStep =
    | ReadScope(socket: SocketId, scope: Scope, report: ScopeReport)
    | EnableScope(socket: SocketId)
    | AckEpoch(socket: SocketId, project: Id, epoch: int, generation: int, blackout: bool, levels: seq<int>)
    | StartProbe(device: Id)
    | EndProbe(device: Id)

  datatype HandshakeStep =
    | Reserve(id: Id, plan: Plan, generation: int)
    | CancelReservation(id: Id)
    | Fence(id: Id, plan: Plan)
    | Recheck(id: Id)
    | DeliverAck(socket: SocketId, kind: HandshakeKind, ack: Ack)
    | Verify(id: Id)
    | Commit(id: Id)
    | CloseCommitted
    | Finish(id: Id)
    | Migrate(id: Id, device: Id, project: Id, actor: Id)

  datatype Action =
    | World(world: WorldStep)
    | Link(link: LinkStep)
    | Dispatching(dispatch: DispatchStep)
    | Result(result: ResultStep)
    | Scoping(scoping: ScopeStep)
    | Handshaking(handshake: HandshakeStep)

  // ---------------------------------------------------------------- connections

  predicate IsCurrent(n: Net, k: SocketId) {
    k in n.sockets && n.sockets[k].device in n.current && n.current[n.sockets[k].device] == k
  }

  /** The socket may be acted on under the lock: Hub running, socket current and not closed. */
  predicate Live(n: Net, k: SocketId) {
    !n.stopped && IsCurrent(n, k) && n.sockets[k].open
  }

  function Shut(sockets: map<SocketId, Socket>, k: SocketId): map<SocketId, Socket> {
    if k in sockets then sockets[k := sockets[k].(open := false)] else sockets
  }

  function DoHello(s: Hub, device: Id, tables: Option<Tables>): Hub {
    match tables
    case None => s
    case Some(t) =>
      if device !in s.t.devices && device in t.assignments
      then s.(t := t, trace := s.trace.(enrolled := s.trace.enrolled[device := t.assignments[device]]))
      else s.(t := t)
  }

  function Attach(n: Net, k: SocketId, device: Id, v2: bool, generation: int): Net {
    n.(current := n.current[device := k],
       sockets := n.sockets[k := Socket(device, v2, generation, true, false, NO_SCOPE)])
  }

  /** `register` displaces the device's socket; the displaced one is closed later. */
  function DoRegister(s: Hub, k: SocketId, device: Id, v2: bool): Hub {
    if s.net.stopped || k in s.net.sockets || device !in s.t.devices then s
    else if v2 then
      match AllocateGeneration(s.t)
      case None => s
      case Some(t) => s.(t := t, net := Attach(s.net, k, device, true, t.generation))
    else if s.net.v1Generation >= MAX_INT64 then s
    else
      var g := s.net.v1Generation + 1;
      s.(net := Attach(s.net, k, device, false, g).(v1Generation := g))
  }

  function DoUnregister(s: Hub, k: SocketId): Hub {
    if k !in s.net.sockets then s
    else
      s.(net := if IsCurrent(s.net, k) then s.net.(current := s.net.current - {s.net.sockets[k].device}) else s.net,
         work := s.work.(
           inflight := map c | c in s.work.inflight && s.work.inflight[c] != k :: s.work.inflight[c],
           interrupted := s.work.interrupted + map c | c in s.work.inflight && s.work.inflight[c] == k :: k))
  }

  /** The interrupted commands are failed only after their socket has been closed. */
  function DoFailInterrupted(s: Hub, c: Id): Hub {
    if c in s.work.interrupted && s.work.interrupted[c] in s.net.sockets && !s.net.sockets[s.work.interrupted[c]].open
    then s.(t := Complete(s.t, c, Failed), work := s.work.(interrupted := s.work.interrupted - {c}))
    else s
  }

  function DoClose(s: Hub, k: SocketId): Hub {
    s.(net := s.net.(sockets := Shut(s.net.sockets, k)))
  }

  function DoStop(s: Hub): Hub {
    s.(net := s.net.(stopped := true, current := map[]))
  }

  function DoRestart(s: Hub): Hub {
    s.(net := Net(false, map k | k in s.net.sockets :: s.net.sockets[k].(open := false), map[], {}, 0, None, {}),
       work := Work(map[], map[], map[], map[], map[], map[], {}, map[]))
  }

  // ---------------------------------------------------------------- dispatch

  function SetDispatch(s: Hub, c: Id, d: Dispatch): Hub {
    s.(work := s.work.(dispatches := s.work.dispatches[c := d]))
  }

  function EndDispatch(s: Hub, c: Id): Hub {
    s.(work := s.work.(dispatches := s.work.dispatches - {c}))
  }

  predicate AtStage(s: Hub, c: Id, stage: Stage) {
    c in s.work.dispatches && s.work.dispatches[c].stage == stage
  }

  /** A newly drawn command id is used nowhere. */
  predicate Fresh(s: Hub, c: Id) {
    && c != NO_ID && c !in s.t.commands && c !in s.work.dispatches && c !in s.work.inflight
    && c !in s.work.interrupted && c !in s.work.callers
    && forall k | k in s.work.answers && !s.work.answers[k].stage.Allowed? :: s.work.answers[k].command != c
  }

  /** Reads the device record. */
  function DoAsk(s: Hub, c: Id, device: Id, project: Id, snapshot: Id, key: Id): Hub {
    if Fresh(s, c) && DeviceMay(s.t, device, project)
    then SetDispatch(s, c, Dispatch(device, project, snapshot, key, Asked(s.t.devices[device].protocol)))
    else s
  }

  /** Reads the assignment. */
  function DoCheck(s: Hub, c: Id): Hub {
    if c in s.work.dispatches && s.work.dispatches[c].stage.Asked? then
      var d := s.work.dispatches[c];
      if ScopeMay(s.t, d.stage.protocol, d.device, d.project, d.snapshot)
      then SetDispatch(s, c, d.(stage := Checked)) else EndDispatch(s, c)
    else s
  }

  /** The lookup by idempotency key finds nothing. */
  function DoFind(s: Hub, c: Id): Hub {
    if AtStage(s, c, Checked) &&
       (forall x | x in s.t.commands :: !StandsFor(s.t, x, s.work.dispatches[c].device, s.work.dispatches[c].key))
    then SetDispatch(s, c, s.work.dispatches[c].(stage := Cleared))
    else s
  }

  /** The lookup finds a command, at first or after a refused insert: this Dispatch returns it and has
      nothing to do with its frame. */
  function DoDuplicate(s: Hub, c: Id, existing: Id): Hub {
    if (AtStage(s, c, Checked) || AtStage(s, c, Cleared)) &&
       StandsFor(s.t, existing, s.work.dispatches[c].device, s.work.dispatches[c].key)
    then EndDispatch(s.(work := s.work.(callers := s.work.callers + {existing}),
                        trace := s.trace.(duplicated := s.trace.duplicated + {existing})), c)
    else s
  }

  /** Inserts the ACCEPTED row, whatever has happened since the checks. */
  function DoStore(s: Hub, c: Id): Hub {
    if AtStage(s, c, Cleared) && c !in s.t.commands then
      var d := s.work.dispatches[c];
      SetDispatch(s.(t := s.t.(commands := s.t.commands[c := Command(d.device, d.project, d.snapshot, d.key,
                                                                     Accepted)])),
                  c, d.(stage := Stored))
    else s
  }

  function DeleteAccepted(t: Tables, c: Id): Tables {
    if c in t.commands && t.commands[c].status == Accepted then t.(commands := t.commands - {c}) else t
  }

  /** Creation refused, or the row taken back when its event could not be recorded: the row is deleted
      while it is still ACCEPTED. */
  function DoAbort(s: Hub, c: Id): Hub {
    if c in s.work.dispatches && (AtStage(s, c, Checked) || AtStage(s, c, Cleared) || s.work.dispatches[c].stage.Asked?)
    then EndDispatch(s, c)
    else if AtStage(s, c, Stored) then EndDispatch(s.(t := DeleteAccepted(s.t, c)), c)
    else s
  }

  predicate ScopeReady(k: Socket, d: Dispatch) {
    k.v2 ==> k.enabled && k.scope.project == d.project && k.scope.snapshot == d.snapshot && 0 < k.scope.epoch
  }

  predicate CanBind(s: Hub, d: Dispatch, capable: bool) {
    && !s.net.stopped && d.device in s.net.current && s.net.current[d.device] in s.net.sockets
    && d.device !in s.net.transitions
    && ScopeReady(s.net.sockets[s.net.current[d.device]], d)
    && (capable || !s.net.sockets[s.net.current[d.device]].v2)
  }

  function DoBind(s: Hub, c: Id, capable: bool): Hub {
    if !AtStage(s, c, Stored) then s
    else
      var d := s.work.dispatches[c];
      if CanBind(s, d, capable) then
        var k := s.net.current[d.device];
        SetDispatch(s.(work := s.work.(inflight := s.work.inflight[c := k])), c,
                    d.(stage := Bound(k, s.net.sockets[k].scope.epoch, |s.t.log|)))
      else SetDispatch(s, c, d.(stage := Failing))
  }

  function Unbound(inflight: map<Id, SocketId>, c: Id, k: SocketId): map<Id, SocketId> {
    if c in inflight && inflight[c] == k then inflight - {c} else inflight
  }

  function AssignmentOf(t: Tables, device: Id): Option<Assignment> {
    if device in t.assignments then Some(t.assignments[device]) else None
  }

  function FrameOf(s: Hub, c: Id, d: Dispatch): Frame
    requires d.stage.Bound? && d.stage.socket in s.net.sockets
  {
    var k := d.stage.socket;
    Frame(c, d.device, d.project, d.snapshot, d.stage.epoch, s.net.sockets[k].v2, IsCurrent(s.net, k),
          s.net.closing == Some(k), d.stage.since, |s.t.log|, AssignmentOf(s.t, s.net.sockets[k].device))
  }

  /** The Dispatch returns the command to its caller. */
  function ReturnDispatch(s: Hub, c: Id): Hub {
    EndDispatch(s.(work := s.work.(callers := s.work.callers + {c})), c)
  }

  /** The write happens outside the lock; only the socket's own closed flag can stop it. */
  function DoSend(s: Hub, c: Id, delivered: bool): Hub {
    if c !in s.work.dispatches || !s.work.dispatches[c].stage.Bound? then s
    else
      var d := s.work.dispatches[c];
      var k := d.stage.socket;
      if k in s.net.sockets && s.net.sockets[k].open && delivered then
        ReturnDispatch(s.(trace := s.trace.(frames := s.trace.frames + [FrameOf(s, c, d)])), c)
      else
        SetDispatch(s.(net := s.net.(sockets := Shut(s.net.sockets, k)),
                       work := s.work.(inflight := Unbound(s.work.inflight, c, k))),
                    c, d.(stage := Failing))
  }

  function DoFail(s: Hub, c: Id): Hub {
    if AtStage(s, c, Failing) then ReturnDispatch(s.(t := Complete(s.t, c, Failed)), c) else s
  }

  /** The Dispatch of this command has neither written its frame nor given up. */
  predicate Starting(s: Hub, c: Id) {
    c in s.work.dispatches && !s.work.dispatches[c].stage.Failing?
  }

  /** Stores the first terminal status of a command. */
  function EndCommand(s: Hub, c: Id, status: CommandStatus): Hub {
    s.(t := Complete(s.t, c, status),
       trace := s.trace.(early := if Starting(s, c) then s.trace.early + {c} else s.trace.early))
  }

  /** A v2 socket may send results while it is current and enabled, any other one always. */
  predicate MayAnswer(s: Hub, k: SocketId) {
    k in s.net.sockets && (s.net.sockets[k].v2 ==> !s.net.stopped && IsCurrent(s.net, k) && s.net.sockets[k].enabled)
  }

  /** The receive loop of a socket handles one result at a time. First the socket is checked. */
  function DoAllowResult(s: Hub, k: SocketId, c: Id, status: CommandStatus): Hub {
    if k !in s.work.answers && MayAnswer(s, k) && status != Accepted
    then s.(work := s.work.(answers := s.work.answers[k := Answer(c, status, Allowed)]))
    else s
  }

  /** Then the binding: a result for a command that is not bound to this socket is dropped. */
  function DoTakeResult(s: Hub, k: SocketId): Hub {
    if k !in s.work.answers || !s.work.answers[k].stage.Allowed? then s
    else
      var a := s.work.answers[k];
      if a.command in s.work.inflight && s.work.inflight[a.command] == k then
        s.(work := s.work.(answers := s.work.answers[k := a.(stage := Taken)]),
           trace := s.trace.(answered := if Starting(s, a.command) then s.trace.answered + {a.command}
                             else s.trace.answered))
      else s.(work := s.work.(answers := s.work.answers - {k}))
  }

  function DoStoreResult(s: Hub, k: SocketId): Hub {
    if k in s.work.answers && s.work.answers[k].stage.Taken? then
      var a := s.work.answers[k];
      EndCommand(s, a.command, a.status).(work := s.work.(answers := s.work.answers[k := a.(stage := Recorded)]))
    else s
  }

  function DoUnbind(s: Hub, k: SocketId): Hub {
    if k in s.work.answers && s.work.answers[k].stage.Recorded? then
      s.(work := s.work.(answers := s.work.answers - {k},
                         inflight := Unbound(s.work.inflight, s.work.answers[k].command, k)))
    else s
  }

  /** A caller whose Dispatch has returned stops waiting, by cancellation or timeout. */
  function DoInterruptCaller(s: Hub, c: Id, status: CommandStatus): Hub {
    if c in s.work.callers && (status == CancelledCommand || status == TimedOut) then EndCommand(s, c, status) else s
  }

  /** A terminal status is taken back when its event could not be recorded. */
  function DoReopen(s: Hub, c: Id): Hub {
    if c in s.t.commands
    then s.(t := s.t.(commands := s.t.commands[c := s.t.commands[c].(status := Accepted)]))
    else s
  }

  // ---------------------------------------------------------------- scope and epoch acknowledgments

  /** The stored row is ACTIVE with exactly this scope, for an eligible device. */
  predicate ScopeAuthoritative(t: Tables, device: Id, scope: Scope) {
    && scope.project != NO_ID && scope.snapshot != NO_ID && 0 < scope.epoch
    && device in t.assignments
    && t.assignments[device] == Assignment(Active, scope.project, scope.snapshot, scope.epoch)
    && (LightingReady(t, device) || TabletReady(t, device) || LaserReady(t, device))
    && (LightingReady(t, device) ==> 1 < scope.epoch)
  }

  predicate ScopeReported(t: Tables, device: Id, scope: Scope, report: ScopeReport) {
    && (LightingReady(t, device) ==>
          report.blackout && |report.levels| == MAX_CHANNELS && AllZero(report.levels) &&
          LightingConfig(t.env, device, scope.project, scope.snapshot) == Some(report.config))
    && (LaserReady(t, device) ==> LaserSafe(report.observation))
  }

  function DoReadScope(s: Hub, k: SocketId, scope: Scope, report: ScopeReport): Hub {
    if k in s.net.sockets && s.net.sockets[k].v2 && report.generation == s.net.sockets[k].generation && report.ready &&
       ScopeAuthoritative(s.t, s.net.sockets[k].device, scope) &&
           ScopeReported(s.t, s.net.sockets[k].device, scope, report)
    then
      var device := s.net.sockets[k].device;
      var taken := ScopeAck(device, s.net.sockets[k].generation, scope, report, s.t.devices[device], s.t.env);
      s.(work := s.work.(scopeReads := s.work.scopeReads[k := scope]),
         trace := s.trace.(evidence := s.trace.evidence + [taken]))
    else s
  }

  function Enabled(n: Net, k: SocketId, scope: Scope): Net
    requires k in n.sockets
  {
    n.(sockets := n.sockets[k := n.sockets[k].(scope := scope, enabled := true)])
  }

  function DoEnable(s: Hub, k: SocketId): Hub {
    if k !in s.work.scopeReads then s
    else
      s.(work := s.work.(scopeReads := s.work.scopeReads - {k}),
         net := if Live(s.net, k) && s.net.sockets[k].device !in s.net.transitions
                then Enabled(s.net, k, s.work.scopeReads[k]) else s.net)
  }

  function DoAckEpoch(s: Hub, k: SocketId, project: Id, epoch: int, generation: int, blackout: bool,
                      levels: seq<int>): Hub
  {
    if !Live(s.net, k) || !s.net.sockets[k].v2 || epoch <= 1 || generation != s.net.sockets[k].generation then s
    else
      var device := s.net.sockets[k].device;
      match RecordAck(s.t, device, project, epoch, generation, blackout, levels)
      case None => s
      case Some(t) =>
        s.(t := t,
           trace := s.trace.(evidence := s.trace.evidence +
                             [EpochReport(device, project, epoch, s.net.sockets[k].generation, levels)]))
  }

  /** A read-only diagnostic of the lighting levels, one at a time for each device. */
  function DoStartProbe(s: Hub, device: Id): Hub {
    if device in s.net.current && Live(s.net, s.net.current[device]) && s.net.sockets[s.net.current[device]].v2 &&
       device !in s.net.probes && PendingKey(Blackout, device) !in s.work.pending
    then s.(net := s.net.(probes := s.net.probes + {device}))
    else s
  }

  function DoEndProbe(s: Hub, device: Id): Hub {
    s.(net := s.net.(probes := s.net.probes - {device}))
  }

  // ---------------------------------------------------------------- handshakes

  function SetHandshake(s: Hub, id: Id, h: Handshake): Hub {
    s.(work := s.work.(handshakes := s.work.handshakes[id := h]))
  }

  predicate NoPending(pending: map<PendingKey, Id>, kinds: set<HandshakeKind>, device: Id) {
    forall kind | kind in kinds :: PendingKey(kind, device) !in pending
  }

  function Excluded(kind: HandshakeKind): set<HandshakeKind> {
    match kind
    case Blackout => {Blackout}
    case Activation => {Activation, TabletMove, Blackout}
    case TabletMove => {TabletMove, Blackout}
    case LaserMove => {LaserMove, TabletMove, Activation, Blackout}
  }

  function DoReserve(s: Hub, id: Id, plan: Plan, generation: int): Hub {
    if id == NO_ID || id in s.t.intents || id in s.work.handshakes || plan.kind != Blackout ||
       plan.device == NO_ID || plan.actor == NO_ID || plan.challenge == NO_ID ||
       plan.fromProject == plan.toProject || plan.epoch < 1 || generation < 1 then s
    else
      var request := TransferRequest(plan.device, plan.fromProject, plan.toProject, plan.epoch);
      SetHandshake(
        s.(t := ReserveIntent(s.t, request, id, generation, MAX_CHANNELS, plan.actor, plan.challenge)),
        id, Handshake(plan, 0, generation, Reserved, None, None))
  }

  function DoCancel(s: Hub, id: Id): Hub {
    if id in s.work.handshakes && s.work.handshakes[id].plan.kind == Blackout && s.work.handshakes[id].phase != Done
    then s.(t := CancelIntent(s.t, id, s.work.handshakes[id].plan.device, s.work.handshakes[id].plan.actor))
    else s
  }

  /** A reserved blackout request may go out: its reservation is for this socket and not expired. */
  predicate ReservationCurrent(s: Hub, id: Id, plan: Plan, generation: int) {
    && id in s.work.handshakes && s.work.handshakes[id].plan == plan && s.work.handshakes[id].phase == Reserved
    && s.work.handshakes[id].generation == generation
    && id in s.t.intents && s.t.env.now < s.t.intents[id].expires
  }

  /** Under the lock: the request is bound to the device's live v2 socket. A blackout request does
      not raise the transition flag. */
  function DoFence(s: Hub, id: Id, plan: Plan): Hub {
    if id == NO_ID || plan.device !in s.net.current || !Live(s.net, s.net.current[plan.device]) ||
       !s.net.sockets[s.net.current[plan.device]].v2 ||
       !NoPending(s.work.pending, Excluded(plan.kind), plan.device) || plan.device in s.net.probes then s
    else
      var k := s.net.current[plan.device];
      var generation := s.net.sockets[k].generation;
      var pended := s.(work := s.work.(pending := s.work.pending[PendingKey(plan.kind, plan.device) := id]));
      if plan.kind == Blackout then
        if ReservationCurrent(s, id, plan, generation)
        then SetHandshake(pended, id, s.work.handshakes[id].(phase := Fenced, socket := k))
        else s
      else if id in s.work.handshakes || plan.device in s.net.transitions || plan.actor == NO_ID then s
      else
        SetHandshake(pended.(net := s.net.(transitions := s.net.transitions + {plan.device})), id,
                     Handshake(plan, k, generation, Fenced, None, None))
  }

  /** The preflight that runs behind the fence. */
  function Preflight(t: Tables, plan: Plan, generation: int): Option<Id> {
    match plan.kind
    case Blackout => None
    case Activation => ActivationPreflight(t, plan.device, plan.toProject, plan.toSnapshot, plan.epoch, generation)
    case TabletMove =>
      if TabletPreflight(t, plan.device, plan.fromProject, plan.fromSnapshot, plan.toProject, plan.toSnapshot,
                         plan.epoch) then Some(NO_ID) else None
    case LaserMove =>
      if LaserPreflight(t, plan.device, plan.fromProject, plan.fromSnapshot, plan.toProject, plan.toSnapshot,
                        plan.epoch) then Some(NO_ID) else None
  }

  function DoRecheck(s: Hub, id: Id): Hub {
    if id !in s.work.handshakes || s.work.handshakes[id].phase != Fenced then s
    else
      match Preflight(s.t, s.work.handshakes[id].plan, s.work.handshakes[id].generation)
      case None => s
      case Some(config) => SetHandshake(s, id, s.work.handshakes[id].(config := Some(config)))
  }

  /** The request an acknowledgment of this kind on this socket would answer. */
  predicate Answers(s: Hub, k: SocketId, kind: HandshakeKind, id: Id) {
    && !s.net.stopped && k in s.net.sockets && s.net.sockets[k].v2
    && PendingKey(kind, s.net.sockets[k].device) in s.work.pending
    && s.work.pending[PendingKey(kind, s.net.sockets[k].device)] == id
    && id in s.work.handshakes
    && var h := s.work.handshakes[id];
    && h.socket == k && h.plan.kind == kind && h.phase == Fenced && h.ack.None?
  }

  /** Only the socket the request was bound to can answer it, and only once. */
  function DoDeliver(s: Hub, k: SocketId, kind: HandshakeKind, ack: Ack): Hub {
    if !Answers(s, k, kind, ack.id) then s
    else
      var report := HandshakeReport(kind, s.net.sockets[k].device, s.net.sockets[k].generation, ack);
      SetHandshake(s.(trace := s.trace.(evidence := s.trace.evidence + [report])), ack.id,
                   s.work.handshakes[ack.id].(ack := Some(ack)))
  }

  predicate AckMatches(id: Id, h: Handshake) {
    && h.ack.Some?
    && var a := h.ack.value;
    && a.id == id && a.device == h.plan.device && a.epoch == h.plan.epoch && a.generation == h.generation
    && a.challenge == h.plan.challenge
    && (h.plan.kind == Activation ==>
          a.project == h.plan.toProject && a.snapshot == h.plan.toSnapshot && h.config == Some(a.config))
    && (h.plan.kind == Blackout || h.plan.kind == Activation ==>
          a.safe && |a.levels| == MAX_CHANNELS && AllZero(a.levels))
    && (h.plan.kind == TabletMove ==> a.safe)
    && (h.plan.kind != Blackout ==> h.config.Some?)
  }

  function DropPending(pending: map<PendingKey, Id>, plan: Plan, id: Id): map<PendingKey, Id> {
    var key := PendingKey(plan.kind, plan.device);
    if key in pending && pending[key] == id then pending - {key} else pending
  }

  predicate MayVerify(s: Hub, id: Id) {
    && id in s.work.handshakes
    && s.work.handshakes[id].plan.kind == Blackout && s.work.handshakes[id].phase == Fenced
    && AckMatches(id, s.work.handshakes[id]) && Live(s.net, s.work.handshakes[id].socket)
  }

  /** Ends a blackout request: the answer is checked and the request no longer pending. */
  function DoVerify(s: Hub, id: Id): Hub {
    if !MayVerify(s, id) then s
    else
      SetHandshake(s.(work := s.work.(pending := DropPending(s.work.pending, s.work.handshakes[id].plan, id))), id,
                   s.work.handshakes[id].(phase := Verified))
  }

  function TransferInput(id: Id, h: Handshake): VerifiedTransfer
    requires h.ack.Some?
  {
    VerifiedTransfer(id, h.plan.device, h.plan.fromProject, h.plan.toProject, h.plan.epoch, h.generation,
                     h.plan.challenge, h.plan.device, h.plan.epoch, h.generation, h.plan.challenge, true,
                     h.ack.value.levels, h.plan.actor, id)
  }

  function ActivationInput(id: Id, h: Handshake): VerifiedActivation
    requires h.ack.Some? && h.config.Some?
  {
    var a := h.ack.value;
    VerifiedActivation(id, h.plan.device, h.plan.toProject, h.plan.toSnapshot, h.plan.epoch, h.generation,
                       h.plan.challenge, h.config.value, a.device, a.project, a.snapshot, a.epoch, a.generation,
                       a.challenge, a.config, a.safe, a.levels, h.plan.actor)
  }

  function TabletInput(id: Id, h: Handshake): VerifiedTablet
    requires h.ack.Some?
  {
    var a := h.ack.value;
    VerifiedTablet(id, h.plan.device, h.plan.fromProject, h.plan.fromSnapshot, h.plan.toProject, h.plan.toSnapshot,
                   h.plan.epoch, h.generation, h.plan.challenge, a.device, a.epoch, a.generation, a.challenge,
                   a.safe, h.plan.actor)
  }

  function LaserInput(id: Id, h: Handshake): VerifiedLaser
    requires h.ack.Some?
  {
    var a := h.ack.value;
    VerifiedLaser(id, h.plan.device, h.plan.fromProject, h.plan.fromSnapshot, h.plan.toProject, h.plan.toSnapshot,
                  h.plan.epoch, h.generation, h.plan.challenge, a.device, a.epoch, a.generation, a.challenge,
                  a.observation, h.plan.actor)
  }

  /** The repository transaction that the handshake ends in. */
  function CommitTables(t: Tables, id: Id, h: Handshake): Option<Tables>
    requires AckMatches(id, h)
  {
    match h.plan.kind
    case Blackout =>
      (match CommitTransfer(t, TransferInput(id, h), NO_ID)
       case None => None
       case Some(o) => Some(o.tables))
    case Activation => CommitActivation(t, ActivationInput(id, h))
    case TabletMove => CommitTablet(t, TabletInput(id, h))
    case LaserMove => CommitLaser(t, LaserInput(id, h))
  }

  predicate ReadyToCommit(s: Hub, id: Id) {
    && id in s.work.handshakes
    && var h := s.work.handshakes[id];
    && h.phase == (if h.plan.kind == Blackout then Verified else Fenced)
    && AckMatches(id, h)
    && h.socket in s.net.sockets && s.net.sockets[h.socket].device == h.plan.device
    && Live(s.net, h.socket) && s.net.sockets[h.socket].v2 && s.net.sockets[h.socket].generation == h.generation
    && (h.plan.kind != Blackout ==> h.plan.device in s.net.transitions)
  }

  /** The transaction. The lock stays with this handshake, whose socket is closed next. */
  function DoCommit(s: Hub, id: Id): Hub {
    if !ReadyToCommit(s, id) then s
    else
      match CommitTables(s.t, id, s.work.handshakes[id])
      case None => s
      case Some(t) =>
        SetHandshake(s.(t := t, net := s.net.(closing := Some(s.work.handshakes[id].socket))), id,
                     s.work.handshakes[id].(phase := Done))
  }

  /** The close that ends the critical section of a commit. */
  function DoCloseCommitted(s: Hub): Hub {
    match s.net.closing
    case None => s
    case Some(k) => s.(net := s.net.(sockets := Shut(s.net.sockets, k), closing := None))
  }

  function DoFinish(s: Hub, id: Id): Hub {
    if id !in s.work.handshakes then s
    else
      var plan := s.work.handshakes[id].plan;
      s.(work := s.work.(handshakes := s.work.handshakes - {id}, pending := DropPending(s.work.pending, plan, id)),
         net := if plan.kind == Blackout then s.net
                else s.net.(transitions := s.net.transitions - {plan.device}))
  }

  function DoMigrate(s: Hub, id: Id, device: Id, project: Id, actor: Id): Hub {
    match MigrateLegacy(s.t, id, device, project, actor)
    case None => s
    case Some(t) => s.(t := t)
  }

  function DoDisable(s: Hub, device: Id): Hub {
    if device in s.t.devices
    then s.(t := s.t.(devices := s.t.devices[device := s.t.devices[device].(enabled := false)]))
    else s
  }

  // ---------------------------------------------------------------- the step function and its runs

  function DoWorld(s: Hub, a: WorldStep): Hub {
    match a
    case SetEnvironment(env) => if s.t.env.now <= env.now then s.(t := s.t.(env := env)) else s
    case Disable(device) => DoDisable(s, device)
  }

  function DoLink(s: Hub, a: LinkStep): Hub {
    match a
    case HelloV1(device, project, profile, kind) => DoHello(s, device, UpsertV1(s.t, device, project, profile, kind))
    case HelloV2(device, profile, kind) => DoHello(s, device, RegisterV2(s.t, device, profile, kind))
    case Register(k, device, v2) => DoRegister(s, k, device, v2)
    case CloseSocket(k) => DoClose(s, k)
    case Unregister(k) => DoUnregister(s, k)
    case FailInterrupted(c) => DoFailInterrupted(s, c)
    case Stop => DoStop(s)
    case Restart => DoRestart(s)
  }

  function DoDispatch(s: Hub, a: DispatchStep): Hub {
    match a
    case Ask(c, device, project, snapshot, key) => DoAsk(s, c, device, project, snapshot, key)
    case Check(c) => DoCheck(s, c)
    case Find(c) => DoFind(s, c)
    case Duplicate(c, existing) => DoDuplicate(s, c, existing)
    case Store(c) => DoStore(s, c)
    case Abort(c) => DoAbort(s, c)
    case Bind(c, capable) => DoBind(s, c, capable)
    case Send(c, delivered) => DoSend(s, c, delivered)
    case GiveUp(c) => DoFail(s, c)
  }

  function DoResult(s: Hub, a: ResultStep): Hub {
    match a
    case AllowResult(k, c, status) => DoAllowResult(s, k, c, status)
    case TakeResult(k) => DoTakeResult(s, k)
    case StoreResult(k) => DoStoreResult(s, k)
    case Unbind(k) => DoUnbind(s, k)
    case InterruptCaller(c, status) => DoInterruptCaller(s, c, status)
    case ReopenCommand(c) => DoReopen(s, c)
  }

  function DoScope(s: Hub, a: ScopeStep): Hub {
    match a
    case ReadScope(k, scope, report) => DoReadScope(s, k, scope, report)
    case EnableScope(k) => DoEnable(s, k)
    case AckEpoch(k, project, epoch, generation, blackout, levels) =>
      DoAckEpoch(s, k, project, epoch, generation, blackout, levels)
    case StartProbe(device) => DoStartProbe(s, device)
    case EndProbe(device) => DoEndProbe(s, device)
  }

  function DoHandshake(s: Hub, a: HandshakeStep): Hub {
    match a
    case Reserve(id, plan, generation) => DoReserve(s, id, plan, generation)
    case CancelReservation(id) => DoCancel(s, id)
    case Fence(id, plan) => DoFence(s, id, plan)
    case Recheck(id) => DoRecheck(s, id)
    case DeliverAck(k, kind, ack) => DoDeliver(s, k, kind, ack)
    case Verify(id) => DoVerify(s, id)
    case Commit(id) => DoCommit(s, id)
    case CloseCommitted => DoCloseCommitted(s)
    case Finish(id) => DoFinish(s, id)
    case Migrate(id, device, project, actor) => DoMigrate(s, id, device, project, actor)
  }

  function Step(s: Hub, a: Action): Hub {
    match a
    case World(x) => DoWorld(s, x)
    case Link(x) => DoLink(s, x)
    case Dispatching(x) => DoDispatch(s, x)
    case Result(x) => DoResult(s, x)
    case Scoping(x) => DoScope(s, x)
    case Handshaking(x) => DoHandshake(s, x)
  }

  /** The action is a critical section of the runtime lock. */
  predicate NeedsLock(a: Action) {
    match a
    case World(_) => false
    case Link(x) => x.Register? || x.Unregister? || x.Stop?
    case Dispatching(x) => x.Bind?
    case Result(x) => x.AllowResult? || x.TakeResult? || x.Unbind?
    case Scoping(x) => !x.ReadScope?
    case Handshaking(x) => x.Fence? || x.DeliverAck? || x.Verify? || x.Commit? || x.Finish?
  }

  /** While a commit holds the lock, no other critical section can run. */
  function Apply(s: Hub, a: Action): Hub {
    if s.net.closing.Some? && NeedsLock(a) then s else Step(s, a)
  }

  function Run(s: Hub, actions: seq<Action>): Hub {
    if actions == [] then s else Apply(Run(s, actions[..|actions| - 1]), actions[|actions| - 1])
  }

  // ---------------------------------------------------------------- what a step leaves alone

  /** Rows, their audit, reservations and handshakes are as before. */
  ghost predicate LeavesMoves(s: Hub, n: Hub) {
    && n.t.assignments == s.t.assignments && n.t.log == s.t.log && n.t.intents == s.t.intents
    && n.work.handshakes == s.work.handshakes
  }

  lemma WorldLeavesMoves(s: Hub, a: WorldStep)
    ensures LeavesMoves(s, DoWorld(s, a))
  {
  }

  lemma ResultLeavesMoves(s: Hub, a: ResultStep)
    ensures LeavesMoves(s, DoResult(s, a))
  {
    hide MayAnswer, Starting, Unbound;
  }

  lemma ScopeLeavesMoves(s: Hub, a: ScopeStep)
    ensures LeavesMoves(s, DoScope(s, a))
  {
    hide ScopeAuthoritative, ScopeReported;
  }

  lemma StagesLeaveMoves(s: Hub, c: Id, d: Dispatch)
    ensures LeavesMoves(s, SetDispatch(s, c, d)) && LeavesMoves(s, EndDispatch(s, c))
  {
  }

  lemma CheckLeavesMoves(s: Hub, c: Id)
    ensures LeavesMoves(s, DoCheck(s, c))
  {
    hide ScopeMay, SetDispatch, EndDispatch;
    if c in s.work.dispatches { StagesLeaveMoves(s, c, s.work.dispatches[c].(stage := Checked)); }
  }

  lemma ReadsLeaveMoves(s: Hub, a: DispatchStep)
    requires a.Ask? || a.Check? || a.Find? || a.Duplicate?
    ensures LeavesMoves(s, DoDispatch(s, a))
  {
    hide DeviceMay, StandsFor, Fresh, DoCheck, DoStore, DoAbort, DoBind, DoSend, DoFail;
    if a.Check? { CheckLeavesMoves(s, a.command); }
  }

  lemma DispatchLeavesMoves(s: Hub, a: DispatchStep)
    ensures LeavesMoves(s, DoDispatch(s, a))
  {
    hide CanBind, FrameOf, Shut, Unbound, DoAsk, DoCheck, DoFind, DoDuplicate;
    if a.Ask? || a.Check? || a.Find? || a.Duplicate? { ReadsLeaveMoves(s, a); }
  }

  /** Only hellos, restarts and handshakes touch rows or handshakes. */
  lemma InnerLeavesMoves(s: Hub, a: Action)
    requires !a.Link? && !a.Handshaking?
    ensures LeavesMoves(s, Apply(s, a))
  {
    hide DoWorld, DoDispatch, DoResult, DoScope, NeedsLock;
    match a {
      case World(x) => WorldLeavesMoves(s, x);
      case Dispatching(x) => DispatchLeavesMoves(s, x);
      case Result(x) => ResultLeavesMoves(s, x);
      case Scoping(x) => ScopeLeavesMoves(s, x);
    }
  }

  // ---------------------------------------------------------------- runs in pieces

  lemma {:induction false} RunConcat(s: Hub, xs: seq<Action>, ys: seq<Action>)
    ensures Run(s, xs + ys) == Run(Run(s, xs), ys)
  {
    hide Apply;
    if ys == [] {
      assert xs + ys == xs;
    } else {
      RunConcat(s, xs, ys[..|ys| - 1]);
      assert (xs + ys)[..|xs + ys| - 1] == xs + ys[..|ys| - 1];
    }
  }

  lemma RunOne(s: Hub, a: Action)
    ensures Run(s, [a]) == Apply(s, a)
  {
    assert [a][..0] == [];
  }

  lemma RunTwo(s: Hub, a: Action, b: Action)
    ensures Run(s, [a, b]) == Apply(Apply(s, a), b)
  {
    hide Apply, Run;
    RunConcat(s, [a], [b]);
    RunOne(s, a);
    RunOne(Apply(s, a), b);
    assert [a, b] == [a] + [b];
  }

  lemma RunThree(s: Hub, a: Action, b: Action, c: Action)
    ensures Run(s, [a, b, c]) == Apply(Apply(Apply(s, a), b), c)
  {
    hide Apply, Run;
    RunConcat(s, [a, b], [c]);
    RunTwo(s, a, b);
    RunOne(Apply(Apply(s, a), b), c);
    assert [a, b, c] == [a, b] + [c];
  }
}
