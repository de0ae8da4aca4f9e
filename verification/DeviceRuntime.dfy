/** The device runtime as it is written: its maps, changed in place under the lock, and one method for
    each critical section. Each method is proved to be a step of the Hub machine, so what is proved
    about runs of the machine holds for any interleaving of these methods. */
module DeviceRuntime {
  import opened StageTypes
  import opened AssignmentCommits
  import opened HubMachine
  import opened Repository

  /** Takes the commands bound to one socket out of the in-flight map. */
  method DropBound(inflight: map<Id, SocketId>, k: SocketId) returns (kept: map<Id, SocketId>, bound: set<Id>)
    ensures kept == map c | c in inflight && inflight[c] != k :: inflight[c]
    ensures bound == set c | c in inflight && inflight[c] == k
  {
    kept, bound := inflight, {};
    var todo: set<Id> := inflight.Keys;
    while exists c :: c in todo
      invariant todo <= inflight.Keys
      invariant forall c :: c in bound <==> c in inflight && c !in todo && inflight[c] == k
      invariant forall c :: c in kept <==> c in inflight && (c in todo || inflight[c] != k)
      invariant forall c | c in kept :: kept[c] == inflight[c]
      decreases |todo|
    {
      var c :| c in todo;
      if kept[c] == k {
        kept := kept - {c};
        bound := bound + {c};
      }
      todo := todo - {c};
    }
    ghost var of := set c | c in inflight && inflight[c] == k;
    ghost var rest := map c | c in inflight && inflight[c] != k :: inflight[c];
    assert forall c :: c in bound <==> c in of;
    assert forall c :: c in kept <==> c in rest;
    assert forall c | c in rest :: kept[c] == rest[c];
    assert kept == rest;
  }

  class Runtime {
    const repository: AssignmentRepository
    var stopped: bool
    var sockets: map<SocketId, Socket>
    var connections: map<Id, SocketId>
    var transitions: set<Id>
    var nextGeneration: int
    var inflight: map<Id, SocketId>
    var pending: map<PendingKey, Id>
    var probes: set<Id>

    /** The pending request of each handshake, with its one-place answer channel. */
    var handshakes: map<Id, Handshake>

    /** Local variables of the goroutines that are between two critical sections; `closing` belongs to
        the one that holds the lock in the middle of a commit. */
    ghost var dispatches: map<Id, Dispatch>
    ghost var callers: set<Id>
    ghost var answers: map<SocketId, Answer>
    ghost var closing: Option<SocketId>
    ghost var interrupted: map<Id, SocketId>
    ghost var scopeReads: map<SocketId, Scope>
    ghost var trace: Trace

    ghost function State(): Hub
      reads this, repository
    {
      Hub(repository.Rows(), Net(stopped, sockets, connections, transitions, nextGeneration, closing, probes),
          Work(dispatches, inflight, interrupted, scopeReads, handshakes, pending, callers, answers), trace)
    }

    constructor (r: AssignmentRepository)
      ensures repository == r
      ensures State() == Hub(r.Rows(), Net(false, map[], map[], {}, 0, None, {}),
                             Work(map[], map[], map[], map[], map[], map[], {}, map[]),
                             Trace([], [], map[], {}, {}, {}))
    {
      repository := r;
      stopped, sockets, connections, transitions, nextGeneration := false, map[], map[], {}, 0;
      inflight, pending, probes := map[], map[], {};
      dispatches, interrupted, scopeReads, handshakes := map[], map[], map[], map[];
      callers, answers, closing := {}, map[], None;
      trace := Trace([], [], map[], {}, {}, {});
    }

    // ---------------------------------------------------------------- sockets

    method Close(k: SocketId)
      modifies `sockets
      ensures State() == DoClose(old(State()), k)
    {
      if k in sockets { sockets := sockets[k := sockets[k].(open := false)]; }
    }

    /** Stops the runtime; the sockets it forgot are returned to be closed. */
    method Stop() returns (forgotten: set<SocketId>)
      modifies `stopped, `connections
      ensures State() == DoStop(old(State()))
      ensures !old(stopped) ==> forgotten == old(connections).Values
    {
      forgotten := {};
      if stopped {
        connections := map[];
        return;
      }
      stopped := true;
      forgotten := connections.Values;
      connections := map[];
    }

    method Register(k: SocketId, device: Id, v2: bool) returns (registered: bool, previous: Option<SocketId>)
      requires k !in sockets && device in repository.devices
      modifies this, repository`generation
      ensures State() == DoRegister(old(State()), k, device, v2)
      ensures registered == (State() != old(State()))
      ensures registered ==> device in connections && connections[device] == k
      ensures registered ==> previous == (if device in old(connections) then Some(old(connections)[device]) else None)
    {
      registered, previous := false, None;
      if stopped { return; }
      var generation: int;
      if v2 {
        var issued := repository.AllocateV2ConnectionGeneration();
        if issued.None? { return; }
        generation := issued.value;
      } else {
        if nextGeneration >= MAX_INT64 { return; }
        nextGeneration := nextGeneration + 1;
        generation := nextGeneration;
      }
      if device in connections { previous := Some(connections[device]); }
      connections := connections[device := k];
      sockets := sockets[k := Socket(device, v2, generation, true, false, NO_SCOPE)];
      registered := true;
    }

    /** Forgets a socket and collects the commands bound to it. */
    method Unregister(k: SocketId) returns (bound: set<Id>)
      requires k in sockets
      modifies this
      ensures State() == DoUnregister(old(State()), k)
      ensures bound == set c | c in old(inflight) && old(inflight)[c] == k
      ensures var device := old(sockets)[k].device;
              connections == if device in old(connections) && old(connections)[device] == k
                             then old(connections) - {device} else old(connections)
    {
      var device := sockets[k].device;
      if device in connections && connections[device] == k { connections := connections - {device}; }
      ghost var before := inflight;
      inflight, bound := DropBound(inflight, k);
      interrupted := interrupted + map c | c in before && before[c] == k :: k;
    }

    // ---------------------------------------------------------------- dispatch

    /** Draws a command id and reads the device record. */
    method AskCommand(c: Id, device: Id, project: Id, snapshot: Id, key: Id) returns (protocol: Option<Protocol>)
      requires Fresh(State(), c)
      modifies `dispatches
      ensures State() == DoAsk(old(State()), c, device, project, snapshot, key)
      ensures protocol.Some? ==> c in dispatches && dispatches[c].stage == Asked(protocol.value)
      ensures protocol.None? ==> c !in dispatches
    {
      hide DeviceMay;
      protocol := repository.DeviceAuthority(device, project);
      if protocol.Some? {
        dispatches := dispatches[c := Dispatch(device, project, snapshot, key, Asked(protocol.value))];
      }
    }

    /** Reads the assignment, by a statement of its own. */
    method CheckCommand(c: Id, protocol: Protocol, device: Id, project: Id, snapshot: Id) returns (authorized: bool)
      requires c in dispatches && dispatches[c].stage == Asked(protocol)
      requires dispatches[c].device == device && dispatches[c].project == project && dispatches[c].snapshot == snapshot
      modifies `dispatches
      ensures State() == DoCheck(old(State()), c)
      ensures authorized <==> c in dispatches
    {
      hide ScopeMay;
      authorized := repository.CommandAuthority(protocol, device, project, snapshot);
      dispatches := if authorized then dispatches[c := dispatches[c].(stage := Checked)] else dispatches - {c};
    }

    /** The lookup by idempotency key, before the insert and again when the insert is refused. A command
        it finds is returned to the caller as it is. */
    method FindCommand(c: Id, device: Id, key: Id) returns (existing: Option<Id>)
      requires c in dispatches && (dispatches[c].stage == Checked || dispatches[c].stage == Cleared)
      requires dispatches[c].device == device && dispatches[c].key == key
      modifies `dispatches, `callers, `trace
      ensures State() == if existing.None? then DoFind(old(State()), c)
              else DoDuplicate(old(State()), c, existing.value)
      ensures existing.None? <==> c in dispatches
    {
      existing := repository.FindByKey(device, key);
      if existing.Some? {
        callers := callers + {existing.value};
        trace := trace.(duplicated := trace.duplicated + {existing.value});
        dispatches := dispatches - {c};
      } else {
        dispatches := dispatches[c := dispatches[c].(stage := Cleared)];
      }
    }

    /** Inserts the ACCEPTED row, whatever has happened to the assignment since the check. */
    method StoreCommand(c: Id, device: Id, project: Id, snapshot: Id, key: Id)
      requires c in dispatches && dispatches[c] == Dispatch(device, project, snapshot, key, Cleared)
      requires c !in repository.commands
      modifies `dispatches, repository`commands
      ensures State() == DoStore(old(State()), c)
    {
      repository.commands := repository.commands[c := Command(device, project, snapshot, key, Accepted)];
      dispatches := dispatches[c := dispatches[c].(stage := Stored)];
    }

    /** Ends a command that could not be bound or written. */
    method FailCommand(c: Id)
      requires c in dispatches && dispatches[c].stage == Failing
      modifies `dispatches, `callers, repository`commands
      ensures State() == DoFail(old(State()), c)
    {
      repository.CompleteCommand(c, Failed, true);
      dispatches, callers := dispatches - {c}, callers + {c};
    }

    /** The critical section of a dispatch: bind the stored command to the device's socket. */
    method BindCommand(c: Id, device: Id, project: Id, snapshot: Id, key: Id, capable: bool)
      returns (bound: Option<SocketId>)
      requires c in dispatches && dispatches[c] == Dispatch(device, project, snapshot, key, Stored)
      requires forall d | d in connections :: connections[d] in sockets
      modifies `inflight, `dispatches
      ensures State() == DoBind(old(State()), c, capable)
      ensures bound.Some? <==> dispatches[c].stage.Bound?
      ensures bound.Some? ==> dispatches[c].stage.socket == bound.value
    {
      bound := None;
      var ready, able := true, true;
      if device in connections {
        var k := sockets[connections[device]];
        if k.v2 {
          ready := k.enabled && k.scope.project == project && k.scope.snapshot == snapshot && 0 < k.scope.epoch;
          able := capable;
        }
      }
      if !stopped && device in connections && device !in transitions && ready && able {
        bound := Some(connections[device]);
        inflight := inflight[c := connections[device]];
        dispatches := dispatches[c := dispatches[c].(
          stage := Bound(connections[device], sockets[connections[device]].scope.epoch, |repository.log|))];
      } else {
        dispatches := dispatches[c := dispatches[c].(stage := Failing)];
      }
    }

    method WriteFrame(c: Id, k: SocketId)
      requires c in dispatches && dispatches[c].stage.Bound? && dispatches[c].stage.socket == k
      requires k in sockets && sockets[k].open
      modifies `dispatches, `callers, `trace
      ensures State() == DoSend(old(State()), c, true)
      ensures |trace.frames| == |old(trace).frames| + 1
    {
      trace := trace.(frames := trace.frames + [FrameOf(State(), c, dispatches[c])]);
      dispatches, callers := dispatches - {c}, callers + {c};
    }

    /** The transport refused the frame: the socket is closed and the command given up. */
    method LoseFrame(c: Id, k: SocketId)
      requires c in dispatches && dispatches[c].stage.Bound? && dispatches[c].stage.socket == k
      modifies `sockets, `inflight, `dispatches
      ensures State() == DoSend(old(State()), c, false)
    {
      if c in inflight && inflight[c] == k { inflight := inflight - {c}; }
      if k in sockets { sockets := sockets[k := sockets[k].(open := false)]; }
      dispatches := dispatches[c := dispatches[c].(stage := Failing)];
    }

    /** Writes the frame, or gives the command up and closes the socket. `delivered` is what the
        transport answers. */
    method SendCommand(c: Id, k: SocketId, delivered: bool) returns (written: bool)
      requires c in dispatches && dispatches[c].stage.Bound? && dispatches[c].stage.socket == k
      modifies `sockets, `inflight, `dispatches, `callers, `trace
      ensures State() == DoSend(old(State()), c, delivered)
      ensures written == (|trace.frames| == |old(trace).frames| + 1)
    {
      hide FrameOf, ReturnDispatch, Shut, Unbound;
      written := k in sockets && sockets[k].open && delivered;
      if written { WriteFrame(c, k); } else { LoseFrame(c, k); }
    }

    // ---------------------------------------------------------------- acknowledgments

    /** Enables commands on the socket for a scope that was just found authoritative. */
    method EnableScope(k: SocketId, scope: Scope) returns (enabled: bool)
      requires k in scopeReads && scopeReads[k] == scope
      modifies `sockets, `scopeReads
      ensures State() == DoEnable(old(State()), k)
      ensures enabled ==> k in sockets && sockets[k].enabled && sockets[k].scope == scope
    {
      enabled := !stopped && k in sockets && sockets[k].device in connections &&
                 connections[sockets[k].device] == k && sockets[k].device !in transitions && sockets[k].open;
      if enabled { sockets := sockets[k := sockets[k].(scope := scope, enabled := true)]; }
      scopeReads := scopeReads - {k};
    }

    /** The repository part of a scope acknowledgment: the reported scope is the stored ACTIVE one. */
    method ReadScope(k: SocketId, scope: Scope, report: ScopeReport) returns (authoritative: bool)
      requires k in sockets && sockets[k].v2
      modifies `scopeReads, `trace
      ensures State() == DoReadScope(old(State()), k, scope, report)
      ensures authoritative ==> k in scopeReads && scopeReads[k] == scope
    {
      hide LightingConfig;
      authoritative := false;
      var device := sockets[k].device;
      if scope.epoch <= 0 || report.generation != sockets[k].generation || scope.project == NO_ID ||
         scope.snapshot == NO_ID || !report.ready { return; }
      if device !in repository.devices || device !in repository.assignments { return; }
      var d, a := repository.devices[device], repository.assignments[device];
      if !d.enabled || d.protocol != V2 || d.project != NO_ID { return; }
      if a.state != Active || a.epoch != scope.epoch || a.project != scope.project ||
          a.snapshot != scope.snapshot { return; }
      if d.profile == LightingNode {
        if scope.epoch <= 1 || !report.blackout || |report.levels| != MAX_CHANNELS { return; }
        var zero := AllLevelsZero(report.levels);
        if !zero { return; }
        if LightingConfig(repository.env, device, scope.project, scope.snapshot) != Some(report.config) { return; }
      } else if d.profile == StageLaserProfile && d.kind == Generic {
        if !LaserSafe(report.observation) { return; }
      } else if !(d.profile == TabletProfile && d.kind == TabletPlayer) {
        return;
      }
      scopeReads := scopeReads[k := scope];
      trace := trace.(evidence := trace.evidence +
                      [ScopeAck(device, sockets[k].generation, scope, report, d, repository.env)]);
      authoritative := true;
    }

    /** A device's terminal result: on v2 only while commands are enabled on the current socket. */
    method AllowResult(k: SocketId, c: Id, status: CommandStatus) returns (allowed: bool)
      requires k in sockets && k !in answers && status != Accepted
      modifies `answers
      ensures State() == DoAllowResult(old(State()), k, c, status)
      ensures allowed <==> MayAnswer(old(State()), k)
    {
      allowed := false;
      if sockets[k].v2 {
        var device := sockets[k].device;
        if stopped || device !in connections || connections[device] != k || !sockets[k].enabled { return; }
      }
      answers := answers[k := Answer(c, status, Allowed)];
      allowed := true;
    }

    /** And only for a command that is bound to this socket. */
    method TakeResult(k: SocketId, c: Id, status: CommandStatus) returns (taken: bool)
      requires k in answers && answers[k] == Answer(c, status, Allowed)
      modifies `answers, `trace
      ensures State() == DoTakeResult(old(State()), k)
      ensures taken == (c in inflight && inflight[c] == k)
    {
      taken := c in inflight && inflight[c] == k;
      if !taken {
        answers := answers - {k};
        return;
      }
      answers := answers[k := Answer(c, status, Taken)];
      if c in dispatches && !dispatches[c].stage.Failing? { trace := trace.(answered := trace.answered + {c}); }
    }

    method StoreResult(k: SocketId, c: Id, status: CommandStatus)
      requires k in answers && answers[k] == Answer(c, status, Taken) && status != Accepted
      modifies `answers, `trace, repository`commands
      ensures State() == DoStoreResult(old(State()), k)
    {
      repository.CompleteCommand(c, status, true);
      answers := answers[k := Answer(c, status, Recorded)];
      if c in dispatches && !dispatches[c].stage.Failing? { trace := trace.(early := trace.early + {c}); }
    }

    method UnbindCommand(k: SocketId, c: Id)
      requires k in answers && answers[k].command == c && answers[k].stage == Recorded
      modifies `answers, `inflight
      ensures State() == DoUnbind(old(State()), k)
    {
      if c in inflight && inflight[c] == k { inflight := inflight - {c}; }
      answers := answers - {k};
    }

    /** A caller gives up waiting for a command that a Dispatch returned to it. */
    method InterruptCaller(c: Id, status: CommandStatus)
      requires c in callers && (status == CancelledCommand || status == TimedOut)
      modifies `trace, repository`commands
      ensures State() == DoInterruptCaller(old(State()), c, status)
    {
      repository.CompleteCommand(c, status, true);
      if c in dispatches && !dispatches[c].stage.Failing? { trace := trace.(early := trace.early + {c}); }
    }

    method AckBlockedEpoch(k: SocketId, project: Id, epoch: int, generation: int, blackout: bool, levels: seq<int>)
      returns (recorded: bool)
      requires k in sockets
      modifies `trace, repository`acks
      ensures State() == DoAckEpoch(old(State()), k, project, epoch, generation, blackout, levels)
      ensures recorded <==> |trace.evidence| == |old(trace).evidence| + 1
    {
      recorded := false;
      if !sockets[k].v2 || epoch <= 1 || generation != sockets[k].generation { return; }
      var device := sockets[k].device;
      if stopped || device !in connections || connections[device] != k || !sockets[k].open { return; }
      recorded := repository.RecordBlockedEpochAck(device, project, epoch, generation, blackout, levels);
      if recorded {
        trace := trace.(evidence := trace.evidence +
                        [EpochReport(device, project, epoch, sockets[k].generation, levels)]);
      }
    }

    // ---------------------------------------------------------------- handshakes

    /** Installs a pending blackout request on the socket that its reservation was made for. */
    method RequestBlackout(id: Id, plan: Plan) returns (sent: bool)
      requires id != NO_ID && plan.kind == Blackout && id in handshakes && id in repository.intents
      requires handshakes[id].plan == plan && handshakes[id].phase == Reserved
      requires forall d | d in connections :: connections[d] in sockets && sockets[connections[d]].device == d
      modifies `pending, `handshakes
      ensures State() == DoFence(old(State()), id, plan)
      ensures sent <==> handshakes[id].phase == Fenced
    {
      sent := false;
      if repository.env.now >= repository.intents[id].expires { return; }
      if stopped || plan.device !in connections { return; }
      var k := connections[plan.device];
      if !sockets[k].v2 || sockets[k].generation != handshakes[id].generation { return; }
      if PendingKey(Blackout, plan.device) in pending || plan.device in probes || !sockets[k].open { return; }
      pending := pending[PendingKey(Blackout, plan.device) := id];
      handshakes := handshakes[id := handshakes[id].(phase := Fenced, socket := k)];
      sent := true;
    }

    /** Hands a device's answer to the request it names; only the first one fits into the channel. */
    method DeliverAck(k: SocketId, kind: HandshakeKind, ack: Ack) returns (delivered: bool)
      requires k in sockets
      requires forall key | key in pending :: pending[key] in handshakes
      modifies `handshakes, `trace
      ensures State() == DoDeliver(old(State()), k, kind, ack)
      ensures delivered ==> ack.id in handshakes && handshakes[ack.id].ack == Some(ack)
    {
      delivered := false;
      var key := PendingKey(kind, sockets[k].device);
      if stopped || key !in pending || pending[key] != ack.id || !sockets[k].v2 { return; }
      var h := handshakes[ack.id];
      if h.socket != k || h.plan.kind != kind || h.phase != Fenced || h.ack.Some? { return; }
      trace := trace.(evidence := trace.evidence +
                      [HandshakeReport(kind, sockets[k].device, sockets[k].generation, ack)]);
      handshakes := handshakes[ack.id := h.(ack := Some(ack))];
      delivered := true;
    }

    /** The last check of a blackout request: the answer matches, and came before the socket was lost. */
    method ConfirmBlackout(id: Id) returns (confirmed: bool)
      requires id in handshakes && handshakes[id].plan.kind == Blackout && handshakes[id].phase == Fenced
      modifies `handshakes, `pending
      ensures State() == DoVerify(old(State()), id)
      ensures confirmed <==> handshakes[id].phase == Verified
    {
      confirmed := false;
      var h := handshakes[id];
      if h.ack.None? { return; }
      var a := h.ack.value;
      if a.id != id || a.device != h.plan.device || a.epoch != h.plan.epoch || a.generation != h.generation ||
         a.challenge != h.plan.challenge || !a.safe || |a.levels| != MAX_CHANNELS { return; }
      var zero := AllLevelsZero(a.levels);
      if !zero { return; }
      var k := h.socket;
      if stopped || k !in sockets || sockets[k].device !in connections || connections[sockets[k].device] != k ||
         !sockets[k].open { return; }
      var key := PendingKey(Blackout, h.plan.device);
      if key in pending && pending[key] == id { pending := pending - {key}; }
      handshakes := handshakes[id := h.(phase := Verified)];
      confirmed := true;
    }

    /** Runs the preflight again behind the fence; its plan is what the device must answer to. */
    method RecheckAssignment(id: Id, plan: Plan, generation: int) returns (admitted: bool)
      requires id in handshakes && handshakes[id].phase == Fenced
      requires handshakes[id].plan == plan && handshakes[id].generation == generation && plan.kind != Blackout
      modifies `handshakes
      ensures State() == DoRecheck(old(State()), id)
    {
      hide ActivationPreflight, TabletPreflight, LaserPreflight;
      admitted := false;
      var config: Id := NO_ID;
      match plan.kind {
        case Activation =>
          var found := repository.PreflightLightingActivation(plan.device, plan.toProject, plan.toSnapshot, plan.epoch,
                                                              generation);
          if found.None? { return; }
          config := found.value;
        case TabletMove =>
          var ok := repository.PreflightTabletAssignment(plan.device, plan.fromProject, plan.fromSnapshot,
                                                         plan.toProject, plan.toSnapshot, plan.epoch);
          if !ok { return; }
        case LaserMove =>
          var ok := repository.PreflightStageLaserAssignment(plan.device, plan.fromProject, plan.fromSnapshot,
                                                             plan.toProject, plan.toSnapshot, plan.epoch);
          if !ok { return; }
      }
      handshakes := handshakes[id := handshakes[id].(config := Some(config))];
      admitted := true;
    }

    /** Raises the dispatch fence and installs the pending request, or refuses. */
    method FenceAssignment(id: Id, plan: Plan) returns (fenced: Option<SocketId>)
      requires id != NO_ID && id !in handshakes && plan.kind != Blackout && plan.actor != NO_ID
      requires forall d | d in connections :: connections[d] in sockets && sockets[connections[d]].device == d
      modifies `pending, `transitions, `handshakes
      ensures State() == DoFence(old(State()), id, plan)
      ensures fenced.Some? <==> id in handshakes
    {
      fenced := None;
      if stopped || plan.device !in connections { return; }
      var k := connections[plan.device];
      if !sockets[k].v2 || plan.device in transitions { return; }
      if exists kind | kind in Excluded(plan.kind) :: PendingKey(kind, plan.device) in pending { return; }
      if plan.device in probes { return; }
      if !sockets[k].open { return; }
      transitions := transitions + {plan.device};
      pending := pending[PendingKey(plan.kind, plan.device) := id];
      handshakes := handshakes[id := Handshake(plan, k, sockets[k].generation, Fenced, None, None)];
      fenced := Some(k);
    }

    /** The deferred cleanup of a handshake. */
    method FinishAssignment(id: Id, plan: Plan)
      requires id in handshakes && handshakes[id].plan == plan
      modifies `pending, `transitions, `handshakes
      ensures State() == DoFinish(old(State()), id)
    {
      var key := PendingKey(plan.kind, plan.device);
      if key in pending && pending[key] == id { pending := pending - {key}; }
      if plan.kind != Blackout { transitions := transitions - {plan.device}; }
      handshakes := handshakes - {id};
    }

    /** Whether the handshake's socket may still commit; checked under the lock. */
    predicate SameSocket(plan: Plan, k: SocketId, generation: int)
      reads this
    {
      && !stopped && plan.device in connections && connections[plan.device] == k
      && k in sockets && sockets[k].v2 && sockets[k].device == plan.device && sockets[k].generation == generation
      && (plan.kind != Blackout ==> plan.device in transitions)
      && sockets[k].open
    }

    /** The transaction of a verified blackout transfer; the lock is kept. */
    method CommitTransfer(id: Id, h: Handshake) returns (record: Option<TransferRecord>)
      requires id in handshakes && handshakes[id] == h && h.plan.kind == Blackout && h.phase == Verified
      requires AckMatches(id, h)
      modifies `handshakes, `closing, repository
      ensures State() == DoCommit(old(State()), id)
      ensures record.Some? ==> closing == Some(h.socket)
    {
      hide AssignmentCommits.CommitTransfer, CommitActivation, CommitTablet, CommitLaser;
      record := None;
      if !SameSocket(h.plan, h.socket, h.generation) { return; }
      record := repository.CommitVerifiedBlackoutTransfer(TransferInput(id, h), NO_ID);
      if record.Some? {
        closing := Some(h.socket);
        handshakes := handshakes[id := h.(phase := Done)];
      }
    }

    /** The transaction of a lighting activation, tablet or StageLaser assignment; the lock is kept. */
    method CommitAssignment(id: Id, h: Handshake) returns (committed: bool)
      requires id in handshakes && handshakes[id] == h && h.plan.kind != Blackout && h.phase == Fenced
      requires AckMatches(id, h)
      modifies `handshakes, `closing, repository
      ensures State() == DoCommit(old(State()), id)
      ensures committed ==> closing == Some(h.socket)
    {
      hide AssignmentCommits.CommitTransfer, CommitActivation, CommitTablet, CommitLaser;
      committed := false;
      if !SameSocket(h.plan, h.socket, h.generation) { return; }
      match h.plan.kind {
        case Activation => committed := repository.CommitLightingActivation(ActivationInput(id, h));
        case TabletMove => committed := repository.CommitTabletSafeAssignment(TabletInput(id, h));
        case LaserMove => committed := repository.CommitStageLaserSafeAssignment(LaserInput(id, h));
      }
      if committed {
        closing := Some(h.socket);
        handshakes := handshakes[id := h.(phase := Done)];
      }
    }

    /** The close after the transaction, before the lock is released. */
    method CloseCommitted(k: SocketId)
      requires closing == Some(k)
      modifies `sockets, `closing
      ensures State() == DoCloseCommitted(old(State()))
      ensures k in sockets ==> !sockets[k].open
    {
      if k in sockets { sockets := sockets[k := sockets[k].(open := false)]; }
      closing := None;
    }

    // ---------------------------------------------------------------- lighting probes

    /** Installs a diagnostic probe, unless another one or a blackout request is pending. */
    method StartProbe(device: Id) returns (started: bool)
      requires forall d | d in connections :: connections[d] in sockets && sockets[connections[d]].device == d
      modifies `probes
      ensures State() == DoStartProbe(old(State()), device)
      ensures started ==> device in probes
    {
      started := false;
      if stopped || device !in connections || !sockets[connections[device]].v2 || device in probes ||
         PendingKey(Blackout, device) in pending || !sockets[connections[device]].open { return; }
      probes := probes + {device};
      started := true;
    }
  }
}
