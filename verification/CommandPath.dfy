/** One command from the request to its end, when nothing disturbs it: when it is refused, when it reaches the
    device, how its result comes back, and what a lost socket does to it. */
module CommandPath {
  import opened StageTypes
  import opened AssignmentCommits
  import opened HubMachine

  // ---------------------------------------------------------------- the request

  /** The device may be told to execute this: an enabled v1 device of the Project with a LEGACY row, or an
      enabled v2 device of a profile that has commands, ACTIVE on exactly this scope. */
  ghost predicate MayCommand(t: Tables, device: Id, project: Id, snapshot: Id) {
    && project != NO_ID && device in t.devices && device in t.assignments && t.devices[device].enabled
    && var d := t.devices[device];
    && var a := t.assignments[device];
    && if d.protocol == V1 then d.project == project && a.state == Legacy && a.project == project
       else
         && d.project == NO_ID && a.state == Active && a.project == project && a.snapshot == snapshot != NO_ID
         && (d.profile == LightingNode || (d.profile == TabletProfile && d.kind == TabletPlayer) ||
             (d.profile == StageLaserProfile && d.kind == Generic))
  }

  /** No command of this device was asked for with the same idempotency key. */
  ghost predicate NewKey(t: Tables, device: Id, key: Id) {
    key != NO_ID ==> forall x | x in t.commands :: !(t.commands[x].device == device && t.commands[x].key == key)
  }

  /** The device has an open current socket behind no transition; on v2 it is enabled for this scope. */
  ghost predicate Reachable(n: Net, device: Id, project: Id, snapshot: Id) {
    && !n.stopped && device in n.current && n.current[device] in n.sockets && device !in n.transitions
    && var k := n.sockets[n.current[device]];
    && k.open
    && (k.v2 ==> k.enabled && k.scope.project == project && k.scope.snapshot == snapshot && 0 < k.scope.epoch)
  }

  function Requests(c: Id, device: Id, project: Id, snapshot: Id, key: Id): seq<Action> {
    [Dispatching(Ask(c, device, project, snapshot, key)), Dispatching(Check(c)), Dispatching(Find(c))]
  }

  function Writes(c: Id): seq<Action> {
    [Dispatching(Store(c)), Dispatching(Bind(c, true)), Dispatching(Send(c, true))] + [Dispatching(GiveUp(c))]
  }

  lemma MayMeans(t: Tables, device: Id, project: Id, snapshot: Id)
    ensures MayCommand(t, device, project, snapshot) <==>
            DeviceMay(t, device, project) && ScopeMay(t, t.devices[device].protocol, device, project, snapshot)
  {
  }

  lemma AskOpens(s: Hub, c: Id, device: Id, project: Id, snapshot: Id, key: Id)
    requires Fresh(s, c)
    ensures DoAsk(s, c, device, project, snapshot, key) ==
            if DeviceMay(s.t, device, project)
            then SetDispatch(s, c, Dispatch(device, project, snapshot, key, Asked(s.t.devices[device].protocol))) else s
  {
    hide SetDispatch;
  }

  lemma CheckDecides(s: Hub, c: Id, d: Dispatch)
    requires d.stage.Asked? && c !in s.work.dispatches
    ensures DoCheck(SetDispatch(s, c, d), c) ==
            if ScopeMay(s.t, d.stage.protocol, d.device, d.project, d.snapshot)
            then SetDispatch(s, c, d.(stage := Checked)) else s
  {
    hide ScopeMay;
    var n := SetDispatch(s, c, d);
    assert n.work.dispatches - {c} == s.work.dispatches;
    assert n.work.dispatches[c := d.(stage := Checked)] == s.work.dispatches[c := d.(stage := Checked)];
  }

  lemma NothingToCheck(s: Hub, c: Id)
    requires c !in s.work.dispatches
    ensures DoCheck(s, c) == s && DoFind(s, c) == s
  {
  }

  lemma AskAndCheck(s: Hub, c: Id, device: Id, project: Id, snapshot: Id, key: Id)
    requires Fresh(s, c)
    ensures DoCheck(DoAsk(s, c, device, project, snapshot, key), c) ==
            if MayCommand(s.t, device, project, snapshot)
            then SetDispatch(s, c, Dispatch(device, project, snapshot, key, Checked)) else s
  {
    hide DoAsk, DoCheck, SetDispatch, DeviceMay, ScopeMay, MayCommand;
    MayMeans(s.t, device, project, snapshot);
    AskOpens(s, c, device, project, snapshot, key);
    if DeviceMay(s.t, device, project) {
      assert device in s.t.devices by { MayIsKnown(s.t, device, project); }
      CheckDecides(s, c, Dispatch(device, project, snapshot, key, Asked(s.t.devices[device].protocol)));
    } else {
      NothingToCheck(s, c);
    }
  }

  lemma MayIsKnown(t: Tables, device: Id, project: Id)
    requires DeviceMay(t, device, project)
    ensures device in t.devices
  {
  }

  lemma FindClears(s: Hub, c: Id, d: Dispatch)
    requires d.stage == Checked
    ensures DoFind(SetDispatch(s, c, d), c) ==
            SetDispatch(s, c, if NewKey(s.t, d.device, d.key) then d.(stage := Cleared) else d)
  {
    var n := SetDispatch(s, c, d);
    assert n.work.dispatches[c := d.(stage := Cleared)] == s.work.dispatches[c := d.(stage := Cleared)];
    if !NewKey(s.t, d.device, d.key) {
      var x :| x in s.t.commands && s.t.commands[x].device == d.device && s.t.commands[x].key == d.key;
      assert StandsFor(n.t, x, d.device, d.key);
    }
  }

  lemma RequestIsJudged(s: Hub, c: Id, device: Id, project: Id, snapshot: Id, key: Id)
    requires Fresh(s, c) && s.net.closing.None?
    ensures var n := Run(s, Requests(c, device, project, snapshot, key));
            if MayCommand(s.t, device, project, snapshot) then
              n == SetDispatch(s, c, Dispatch(device, project, snapshot, key,
                                              if NewKey(s.t, device, key) then Cleared else Checked))
            else n == s
  {
    hide Run, DoAsk, DoCheck, DoFind, MayCommand, NewKey, DoLink, DoResult, DoScope, DoHandshake, DoWorld;
    var steps := Requests(c, device, project, snapshot, key);
    RunThree(s, steps[0], steps[1], steps[2]);
    AskAndCheck(s, c, device, project, snapshot, key);
    if MayCommand(s.t, device, project, snapshot) {
      FindClears(s, c, Dispatch(device, project, snapshot, key, Checked));
    } else {
      NothingToCheck(s, c);
    }
  }

  // ---------------------------------------------------------------- the write

  /** The command is stored, bound to the device's current socket and written to it. */
  ghost predicate Written(s: Hub, n: Hub, c: Id, d: Dispatch)
    requires d.device in s.net.current
  {
    && n.t.commands == s.t.commands[c := Command(d.device, d.project, d.snapshot, d.key, Accepted)]
    && n.work.inflight == s.work.inflight[c := s.net.current[d.device]]
    && n.work.dispatches == s.work.dispatches - {c} && c in n.work.callers && n.net == s.net
    && |n.trace.frames| == |s.trace.frames| + 1 && n.trace.frames[..|s.trace.frames|] == s.trace.frames
    && var f := n.trace.frames[|s.trace.frames|];
    && f.command == c && f.device == d.device && f.project == d.project && f.snapshot == d.snapshot && f.onCurrent
  }

  /** The command was stored and has failed; nothing was written. */
  ghost predicate GivenUp(s: Hub, n: Hub, c: Id, d: Dispatch) {
    && n.t.commands == s.t.commands[c := Command(d.device, d.project, d.snapshot, d.key, Failed)]
    && n.trace.frames == s.trace.frames && n.work.dispatches == s.work.dispatches - {c} && c in n.work.callers
    && n.work.inflight == s.work.inflight
  }

  /** The device's current socket, if it has one, is its own. */
  ghost predicate OwnSocket(s: Hub, device: Id) {
    device in s.net.current ==>
      (s.net.current[device] in s.net.sockets && s.net.sockets[s.net.current[device]].device == device)
  }

  /** The command is stored, and bound to the device's socket or about to be given up. */
  ghost predicate BoundOrFailing(s: Hub, m: Hub, c: Id, d: Dispatch) {
    && m.t == s.t.(commands := s.t.commands[c := Command(d.device, d.project, d.snapshot, d.key, Accepted)])
    && m.net == s.net && m.trace == s.trace && m.work.callers == s.work.callers
    && c in m.work.dispatches && m.work.dispatches - {c} == s.work.dispatches - {c}
    && m.work.dispatches[c] == d.(stage := m.work.dispatches[c].stage)
    && if m.work.dispatches[c].stage.Bound? then
         && d.device in s.net.current && m.work.inflight == s.work.inflight[c := s.net.current[d.device]]
         && m.work.dispatches[c].stage.socket == s.net.current[d.device]
         && s.net.current[d.device] in s.net.sockets
         && (Reachable(s.net, d.device, d.project, d.snapshot) <==> s.net.sockets[s.net.current[d.device]].open)
       else
         && m.work.dispatches[c].stage.Failing? && m.work.inflight == s.work.inflight
         && !Reachable(s.net, d.device, d.project, d.snapshot)
  }

  lemma CanBindMeans(s: Hub, d: Dispatch)
    requires OwnSocket(s, d.device)
    ensures CanBind(s, d, true) ==> d.device in s.net.current && s.net.current[d.device] in s.net.sockets
    ensures Reachable(s.net, d.device, d.project, d.snapshot) <==>
            CanBind(s, d, true) && s.net.sockets[s.net.current[d.device]].open
  {
  }

  lemma SameNetBinds(s: Hub, m: Hub, d: Dispatch)
    requires m.net == s.net
    ensures CanBind(m, d.(stage := Stored), true) == CanBind(s, d, true)
  {
  }

  /** The state after the insert. */
  ghost predicate JustStored(s: Hub, m: Hub, c: Id, d: Dispatch) {
    && m.t == s.t.(commands := s.t.commands[c := Command(d.device, d.project, d.snapshot, d.key, Accepted)])
    && m.net == s.net && m.trace == s.trace && m.work.callers == s.work.callers && m.work.inflight == s.work.inflight
    && m.work.dispatches == s.work.dispatches[c := d.(stage := Stored)]
  }

  lemma StoreInserts(s: Hub, c: Id, d: Dispatch)
    requires d.stage == Cleared && c !in s.t.commands
    ensures JustStored(s, DoStore(SetDispatch(s, c, d), c), c, d)
  {
    var n := SetDispatch(s, c, d);
    assert n.work.dispatches[c := d.(stage := Stored)] == s.work.dispatches[c := d.(stage := Stored)];
  }

  lemma BindBinds(s: Hub, m: Hub, c: Id, d: Dispatch)
    requires JustStored(s, m, c, d) && CanBind(m, d.(stage := Stored), true) && OwnSocket(s, d.device)
    ensures BoundOrFailing(s, DoBind(m, c, true), c, d)
  {
    hide CanBind, Reachable;
    CanBindMeans(s, d);
    assert CanBind(s, d, true) by { SameNetBinds(s, m, d); }
    var n := DoBind(m, c, true);
    assert n.work.dispatches - {c} == s.work.dispatches - {c};
  }

  lemma BindRefuses(s: Hub, m: Hub, c: Id, d: Dispatch)
    requires JustStored(s, m, c, d) && !CanBind(m, d.(stage := Stored), true) && OwnSocket(s, d.device)
    ensures BoundOrFailing(s, DoBind(m, c, true), c, d)
  {
    hide CanBind, Reachable;
    CanBindMeans(s, d);
    assert !CanBind(s, d, true) by { SameNetBinds(s, m, d); }
    var n := DoBind(m, c, true);
    assert n.work.dispatches - {c} == s.work.dispatches - {c};
  }

  lemma BindDecides(s: Hub, m: Hub, c: Id, d: Dispatch)
    requires JustStored(s, m, c, d) && OwnSocket(s, d.device)
    ensures BoundOrFailing(s, DoBind(m, c, true), c, d)
  {
    hide *;
    if CanBind(m, d.(stage := Stored), true) { BindBinds(s, m, c, d); } else { BindRefuses(s, m, c, d); }
  }

  lemma SendWrites(s: Hub, m: Hub, c: Id, d: Dispatch)
    requires BoundOrFailing(s, m, c, d) && m.work.dispatches[c].stage.Bound? &&
             IsCurrent(s.net, s.net.current[d.device])
    requires s.net.sockets[s.net.current[d.device]].open
    ensures Written(s, DoSend(m, c, true), c, d)
  {
    hide Reachable, AssignmentOf;
    var n := DoSend(m, c, true);
    assert n.work.dispatches == m.work.dispatches - {c};
  }

  lemma SendFails(s: Hub, m: Hub, c: Id, d: Dispatch)
    requires BoundOrFailing(s, m, c, d) && c !in s.work.inflight
    requires m.work.dispatches[c].stage.Bound? ==> !s.net.sockets[s.net.current[d.device]].open
    ensures var n := DoSend(m, c, true);
            && n.t == m.t && n.trace == m.trace && n.work.callers == m.work.callers &&
               n.work.inflight == s.work.inflight
            && c in n.work.dispatches && n.work.dispatches[c].stage.Failing?
            && n.work.dispatches - {c} == s.work.dispatches - {c}
  {
    hide Reachable;
    var n := DoSend(m, c, true);
    assert n.work.dispatches - {c} == m.work.dispatches - {c};
    assert n.work.inflight == s.work.inflight;
  }

  lemma GiveUpFails(s: Hub, n: Hub, c: Id, d: Dispatch)
    requires n.t == s.t.(commands := s.t.commands[c := Command(d.device, d.project, d.snapshot, d.key, Accepted)])
    requires n.trace == s.trace && n.work.inflight == s.work.inflight
    requires c in n.work.dispatches && n.work.dispatches[c].stage.Failing?
    requires n.work.dispatches - {c} == s.work.dispatches - {c}
    ensures GivenUp(s, DoFail(n, c), c, d)
  {
    var accepted := Command(d.device, d.project, d.snapshot, d.key, Accepted);
    assert s.t.commands[c := accepted][c := accepted.(status := Failed)] ==
           s.t.commands[c := accepted.(status := Failed)];
  }

  lemma WrittenIsOver(s: Hub, n: Hub, c: Id, d: Dispatch)
    requires d.device in s.net.current && Written(s, n, c, d)
    ensures DoFail(n, c) == n
  {
  }

  lemma SendOrGiveUp(s: Hub, m: Hub, c: Id, d: Dispatch)
    requires c !in s.work.inflight && BoundOrFailing(s, m, c, d) && OwnSocket(s, d.device)
    ensures var n := DoFail(DoSend(m, c, true), c);
            if Reachable(s.net, d.device, d.project, d.snapshot) then
              d.device in s.net.current && Written(s, n, c, d)
            else GivenUp(s, n, c, d)
  {
    hide Reachable, DoSend, DoFail, Written, GivenUp;
    if m.work.dispatches[c].stage.Bound? && s.net.sockets[s.net.current[d.device]].open {
      SendWrites(s, m, c, d);
      WrittenIsOver(s, DoSend(m, c, true), c, d);
    } else {
      SendFails(s, m, c, d);
      GiveUpFails(s, DoSend(m, c, true), c, d);
    }
  }

  lemma WritesDecide(s: Hub, c: Id, d: Dispatch)
    requires d.stage == Cleared && c !in s.t.commands && c !in s.work.inflight && OwnSocket(s, d.device)
    requires s.net.closing.None?
    ensures var n := Run(SetDispatch(s, c, d), Writes(c));
            if Reachable(s.net, d.device, d.project, d.snapshot) then
              d.device in s.net.current && Written(s, n, c, d)
            else GivenUp(s, n, c, d)
  {
    hide Run, Reachable, DoSend, DoFail, DoStore, DoBind, Written, GivenUp, OwnSocket;
    hide DoLink, DoResult, DoScope, DoHandshake, DoWorld;
    var s0, steps := SetDispatch(s, c, d), Writes(c);
    RunConcat(s0, steps[..3], steps[3..]);
    assert steps[..3] + steps[3..] == steps;
    RunThree(s0, steps[0], steps[1], steps[2]);
    assert steps[..3] == [steps[0], steps[1], steps[2]] && steps[3..] == [steps[3]];
    StoreInserts(s, c, d);
    BindDecides(s, DoStore(s0, c), c, d);
    var m := DoBind(DoStore(s0, c), c, true);
    SendOrGiveUp(s, m, c, d);
    RunOne(DoSend(m, c, true), steps[3]);
  }

  // ---------------------------------------------------------------- the whole Dispatch

  /** When nothing disturbs it, a Dispatch leaves everything as it is if the device may not be commanded or the
      idempotency key is known; else it stores the command, and writes its frame to the device's current socket
      if and only if that is reachable for this scope; if not, the command has FAILED. */
  lemma DispatchReachesDevice(s: Hub, c: Id, device: Id, project: Id, snapshot: Id, key: Id)
    requires Fresh(s, c) && s.net.closing.None? && OwnSocket(s, device)
    ensures var n := Run(s, Requests(c, device, project, snapshot, key) + Writes(c));
            var d := Dispatch(device, project, snapshot, key, Cleared);
            if !MayCommand(s.t, device, project, snapshot) || !NewKey(s.t, device, key) then
              n.t == s.t && n.net == s.net && n.trace == s.trace
            else if Reachable(s.net, device, project, snapshot) then device in s.net.current && Written(s, n, c, d)
            else GivenUp(s, n, c, d)
  {
    hide Run, MayCommand, NewKey, Reachable, Written, GivenUp, OwnSocket, Requests, Writes, SetDispatch;
    var d := Dispatch(device, project, snapshot, key, Cleared);
    RunConcat(s, Requests(c, device, project, snapshot, key), Writes(c));
    RequestIsJudged(s, c, device, project, snapshot, key);
    if MayCommand(s.t, device, project, snapshot) && NewKey(s.t, device, key) {
      WritesDecide(s, c, d);
    } else if MayCommand(s.t, device, project, snapshot) {
      StagesTouchNothingElse(s, c, d.(stage := Checked));
      NothingIsWritten(SetDispatch(s, c, d.(stage := Checked)), c);
    } else {
      NothingIsWritten(s, c);
    }
  }

  lemma StagesTouchNothingElse(s: Hub, c: Id, d: Dispatch)
    ensures var n := SetDispatch(s, c, d);
            n.t == s.t && n.net == s.net && n.trace == s.trace && AtStage(n, c, d.stage)
  {
  }

  lemma NothingToWrite(s: Hub, c: Id)
    requires c !in s.work.dispatches || AtStage(s, c, Checked)
    ensures DoStore(s, c) == s && DoBind(s, c, true) == s && DoSend(s, c, true) == s && DoFail(s, c) == s
  {
    hide FrameOf, CanBind;
  }

  lemma NothingIsWritten(s: Hub, c: Id)
    requires c !in s.work.dispatches || AtStage(s, c, Checked)
    ensures Run(s, Writes(c)) == s
  {
    hide Run, DoStore, DoBind, DoSend, DoFail, NeedsLock, DoLink, DoResult, DoScope, DoHandshake, DoWorld;
    NothingToWrite(s, c);
    var steps := Writes(c);
    RunConcat(s, steps[..3], steps[3..]);
    assert steps[..3] + steps[3..] == steps;
    RunThree(s, steps[0], steps[1], steps[2]);
    assert steps[..3] == [steps[0], steps[1], steps[2]] && steps[3..] == [steps[3]];
    RunOne(s, steps[3]);
  }

  // ---------------------------------------------------------------- the way back

  /** A v2 socket is heard while it is current and enabled, any other one always. */
  ghost predicate Heard(n: Net, k: SocketId)
    requires k in n.sockets
  {
    var socket := n.sockets[k];
    socket.v2 ==> !n.stopped && socket.enabled && socket.device in n.current && n.current[socket.device] == k
  }

  function Answering(k: SocketId, c: Id, status: CommandStatus): seq<Action> {
    [Result(AllowResult(k, c, status)), Result(TakeResult(k)), Result(StoreResult(k))] + [Result(Unbind(k))]
  }

  function WithAnswer(s: Hub, k: SocketId, a: Answer): Hub {
    s.(work := s.work.(answers := s.work.answers[k := a]))
  }

  lemma AllowDecides(s: Hub, k: SocketId, c: Id, status: CommandStatus)
    requires k in s.net.sockets && k !in s.work.answers && status != Accepted
    ensures DoAllowResult(s, k, c, status) == if Heard(s.net, k) then WithAnswer(s, k, Answer(c, status, Allowed))
            else s
  {
  }

  lemma TakeGoesOn(s: Hub, k: SocketId, c: Id, status: CommandStatus)
    requires k !in s.work.answers && c in s.work.inflight && s.work.inflight[c] == k
    ensures var n := DoTakeResult(WithAnswer(s, k, Answer(c, status, Allowed)), k);
            && n.t == s.t && n.net == s.net && n.work == WithAnswer(s, k, Answer(c, status, Taken)).work
  {
    hide Starting;
  }

  lemma NothingToTake(s: Hub, k: SocketId)
    requires k !in s.work.answers
    ensures DoTakeResult(s, k) == s
  {
  }

  lemma AllowAndTake(s: Hub, k: SocketId, c: Id, status: CommandStatus)
    requires k in s.net.sockets && k !in s.work.answers && status != Accepted
    requires c in s.work.inflight && s.work.inflight[c] == k
    ensures var n := DoTakeResult(DoAllowResult(s, k, c, status), k);
            && n.t == s.t && n.net == s.net
            && n.work == if Heard(s.net, k) then WithAnswer(s, k, Answer(c, status, Taken)).work else s.work
  {
    hide Heard, DoAllowResult, DoTakeResult, WithAnswer;
    AllowDecides(s, k, c, status);
    if Heard(s.net, k) { TakeGoesOn(s, k, c, status); } else { NothingToTake(s, k); }
  }

  lemma StoreGoesOn(s: Hub, n: Hub, k: SocketId, c: Id, status: CommandStatus)
    requires k !in s.work.answers && status != Accepted
    requires c in s.t.commands && s.t.commands[c].status == Accepted
    requires n.t == s.t && n.net == s.net && n.work == WithAnswer(s, k, Answer(c, status, Taken)).work
    ensures var m := DoStoreResult(n, k);
            && m.t.commands == s.t.commands[c := s.t.commands[c].(status := status)] && m.net == s.net
            && m.work == WithAnswer(s, k, Answer(c, status, Recorded)).work
  {
    hide Starting;
  }

  lemma UnbindGoesOn(s: Hub, m: Hub, k: SocketId, c: Id, status: CommandStatus)
    requires k !in s.work.answers && c in s.work.inflight && s.work.inflight[c] == k
    requires m.work == WithAnswer(s, k, Answer(c, status, Recorded)).work
    ensures var n := DoUnbind(m, k);
            && n.t == m.t && n.net == m.net
            && n.work.inflight == s.work.inflight - {c} && n.work.answers == s.work.answers
  {
    assert s.work.answers[k := Answer(c, status, Recorded)] - {k} == s.work.answers;
  }

  lemma NothingToStore(s: Hub, k: SocketId)
    requires k !in s.work.answers
    ensures DoStoreResult(s, k) == s && DoUnbind(s, k) == s
  {
  }

  lemma AllowLeavesNet(s: Hub, k: SocketId, c: Id, status: CommandStatus)
    ensures DoAllowResult(s, k, c, status).net == s.net
  {
  }

  lemma StoreLeavesNet(s: Hub, k: SocketId)
    ensures DoStoreResult(s, k).net == s.net
  {
  }

  /** A result of the device, taken by the receive loop of socket k, ends the command that is bound to k if and
      only if the socket is heard; the command is then unbound. */
  lemma ResultComesBack(s: Hub, k: SocketId, c: Id, status: CommandStatus)
    requires k in s.net.sockets && k !in s.work.answers && s.net.closing.None? && status != Accepted
    requires c in s.work.inflight && s.work.inflight[c] == k
    requires c in s.t.commands && s.t.commands[c].status == Accepted
    ensures var n := Run(s, Answering(k, c, status));
            && n.work.answers == s.work.answers && n.net == s.net
            && if Heard(s.net, k) then
                 && n.t.commands == s.t.commands[c := s.t.commands[c].(status := status)]
                 && n.work.inflight == s.work.inflight - {c}
               else n.t == s.t && n.work.inflight == s.work.inflight
  {
    hide Run, DoAllowResult, DoTakeResult, DoStoreResult, DoUnbind, Heard, WithAnswer;
    hide DoLink, DoDispatch, DoScope, DoHandshake, DoWorld;
    var steps := Answering(k, c, status);
    RunConcat(s, steps[..3], steps[3..]);
    assert steps[..3] + steps[3..] == steps;
    RunThree(s, steps[0], steps[1], steps[2]);
    assert steps[..3] == [steps[0], steps[1], steps[2]] && steps[3..] == [steps[3]];
    AllowAndTake(s, k, c, status);
    assert DoAllowResult(s, k, c, status).net == s.net by { AllowLeavesNet(s, k, c, status); }
    var n := DoTakeResult(DoAllowResult(s, k, c, status), k);
    if Heard(s.net, k) {
      StoreGoesOn(s, n, k, c, status);
      UnbindGoesOn(s, DoStoreResult(n, k), k, c, status);
    } else {
      NothingToStore(n, k);
    }
    assert DoStoreResult(n, k).net == n.net by { StoreLeavesNet(n, k); }
    RunOne(DoStoreResult(n, k), steps[3]);
  }

  lemma TakeDrops(s: Hub, k: SocketId, c: Id, status: CommandStatus)
    requires k !in s.work.answers && !(c in s.work.inflight && s.work.inflight[c] == k)
    ensures DoTakeResult(WithAnswer(s, k, Answer(c, status, Allowed)), k) == s
  {
    hide Starting;
    assert s.work.answers[k := Answer(c, status, Allowed)] - {k} == s.work.answers;
  }

  /** A result for a command that is not bound to the socket it comes from changes nothing. */
  lemma ForeignResultIsDropped(s: Hub, k: SocketId, c: Id, status: CommandStatus)
    requires k in s.net.sockets && k !in s.work.answers && s.net.closing.None? && status != Accepted
    requires !(c in s.work.inflight && s.work.inflight[c] == k)
    ensures Run(s, Answering(k, c, status)) == s
  {
    hide Run, DoAllowResult, DoTakeResult, DoStoreResult, DoUnbind, Heard, WithAnswer;
    hide DoLink, DoDispatch, DoScope, DoHandshake, DoWorld;
    var steps := Answering(k, c, status);
    RunConcat(s, steps[..3], steps[3..]);
    assert steps[..3] + steps[3..] == steps;
    RunThree(s, steps[0], steps[1], steps[2]);
    assert steps[..3] == [steps[0], steps[1], steps[2]] && steps[3..] == [steps[3]];
    AllowDecides(s, k, c, status);
    AllowLeavesNet(s, k, c, status);
    if Heard(s.net, k) { TakeDrops(s, k, c, status); } else { NothingToTake(s, k); }
    NothingToStore(s, k);
    RunOne(s, steps[3]);
  }

  /** When its socket is lost, a command that is bound to it ends: FAILED unless it had ended before. */
  lemma LostSocketFails(s: Hub, k: SocketId, c: Id)
    requires k in s.net.sockets && s.net.closing.None? && c in s.work.inflight && s.work.inflight[c] == k
    requires c in s.t.commands
    ensures var n := Run(s, [Link(Unregister(k)), Link(CloseSocket(k)), Link(FailInterrupted(c))]);
            && c in n.t.commands
            && n.t.commands[c].status == (if s.t.commands[c].status == Accepted then Failed else s.t.commands[c].status)
            && c !in n.work.inflight && c !in n.work.interrupted && k in n.net.sockets && !n.net.sockets[k].open
  {
    hide Run, DoResult, DoDispatch, DoScope, DoHandshake, DoWorld, UpsertV1, RegisterV2;
    RunThree(s, Link(Unregister(k)), Link(CloseSocket(k)), Link(FailInterrupted(c)));
  }
}
