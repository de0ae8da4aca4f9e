/** What a preflight promises the operator: a handshake that nothing disturbs ends in a commit exactly
    when the preflight admits the plan and the device answers the request as asked; a reserved transfer
    must besides be committed before its reservation ends. */
module PreflightAgreement {
  import opened StageTypes
  import opened AssignmentCommits
  import opened HubMachine

  // ---------------------------------------------------------------- the transactions

  function ReservedInput(q: TransferRequest, id: Id, generation: int, actor: Id, challenge: Id, levels: seq<int>)
    : VerifiedTransfer
  {
    VerifiedTransfer(id, q.device, q.fromProject, q.toProject, q.epoch, generation, challenge, q.device, q.epoch,
                     generation, challenge, true, levels, actor, id)
  }

  /** A reserved transfer, answered with twelve zeros, commits exactly when the preflight admits it and its
      reservation has not ended. */
  lemma ReservedTransferCommits(t: Tables, q: TransferRequest, id: Id, generation: int, actor: Id, challenge: Id,
                                levels: seq<int>, later: int, generated: Id)
    requires q.device != NO_ID && 1 <= q.epoch && q.fromProject != q.toProject
    requires id != NO_ID && id !in t.intents && FindTransfer(t.log, q.device, id).None?
    requires 0 < generation && actor != NO_ID && challenge != NO_ID
    requires |levels| == MAX_CHANNELS && AllZero(levels)
    ensures var u := ReserveIntent(t, q, id, generation, MAX_CHANNELS, actor, challenge);
            CommitTransfer(u.(env := u.env.(now := later)),
                           ReservedInput(q, id, generation, actor, challenge, levels), generated).Some? <==>
            TransferPreflight(t, q) && q.epoch < MAX_INT64 && later < t.env.now + RESERVATION_TTL_US
  {
    hide HasPendingCommand, Activations, StateShape;
    var u := ReserveIntent(t, q, id, generation, MAX_CHANNELS, actor, challenge);
    assert u.intents[id].expires == t.env.now + RESERVATION_TTL_US;
  }

  lemma PlannedActivationCommits(t: Tables, v: VerifiedActivation)
    requires WellFormedActivation(v)
    requires ActivationPreflight(t, v.device, v.project, v.snapshot, v.epoch, v.generation) == Some(v.config)
    ensures CommitActivation(t, v) ==
            Some(t.(assignments := t.assignments[v.device := Assignment(Active, v.project, v.snapshot, v.epoch)],
                    log := t.log + [ActivationRow(v)]))
  {
  }

  /** For a device row of the stored shape the tablet preflight and the tablet commit agree both ways. */
  lemma TabletPreflightAgrees(t: Tables, v: VerifiedTablet)
    requires WellFormedTablet(v) && (v.device in t.assignments ==> StateShape(t.assignments[v.device]))
    requires !(v.fromProject == v.toProject && v.fromSnapshot == v.toSnapshot)
    ensures CommitTablet(t, v).Some? <==>
            TabletPreflight(t, v.device, v.fromProject, v.fromSnapshot, v.toProject, v.toSnapshot, v.epoch)
  {
  }

  lemma LaserPreflightAgrees(t: Tables, v: VerifiedLaser)
    requires WellFormedLaser(v)
    ensures CommitLaser(t, v).Some? <==>
            LaserPreflight(t, v.device, v.fromProject, v.fromSnapshot, v.toProject, v.toSnapshot, v.epoch)
  {
  }

  // ---------------------------------------------------------------- a handshake on a live socket

  /** Nothing stands in the way of the request: the device's socket is live, and no other work is pending. */
  ghost predicate Unhindered(s: Hub, id: Id, plan: Plan, k: SocketId) {
    && id != NO_ID && id !in s.work.handshakes && plan.actor != NO_ID && plan.challenge != NO_ID
    && plan.device in s.net.current && s.net.current[plan.device] == k && Live(s.net, k)
    && s.net.sockets[k].device == plan.device && s.net.sockets[k].v2 && 0 < s.net.sockets[k].generation
    && plan.device !in s.net.transitions && plan.device !in s.net.probes && s.net.closing.None?
    && NoPending(s.work.pending, Excluded(plan.kind), plan.device)
  }

  predicate Dark(a: Ack) {
    a.safe && |a.levels| == MAX_CHANNELS && AllZero(a.levels)
  }

  /** The device repeats the request, and is safe in the way this kind of handshake asks for. */
  predicate AnswersAsAsked(id: Id, plan: Plan, generation: int, config: Id, a: Ack) {
    && a.id == id && a.device == plan.device && a.epoch == plan.epoch && a.generation == generation
    && a.challenge == plan.challenge
    && match plan.kind
       case Blackout => Dark(a)
       case Activation => Dark(a) && a.project == plan.toProject && a.snapshot == plan.toSnapshot &&
                          a.config == config && config != NO_ID
       case TabletMove => a.safe
       case LaserMove => LaserSafe(a.observation)
  }

  function MovedRow(plan: Plan): Assignment {
    match plan.kind
    case Blackout => Assignment(NextTransferState(plan.toProject), plan.toProject, NO_ID, plan.epoch + 1)
    case Activation => Assignment(Active, plan.toProject, plan.toSnapshot, plan.epoch)
    case TabletMove => Assignment(NextTabletState(plan.toProject), plan.toProject, plan.toSnapshot, plan.epoch + 1)
    case LaserMove => Assignment(Active, plan.toProject, plan.toSnapshot, plan.epoch + 1)
  }

  function MoveSteps(id: Id, plan: Plan, k: SocketId, a: Ack): seq<Action> {
    [Handshaking(Fence(id, plan)), Handshaking(Recheck(id)), Handshaking(DeliverAck(k, plan.kind, a))] +
    [Handshaking(Commit(id))]
  }

  /** The request as it stands once the device has answered; an answer to another request is dropped. */
  function AnsweredRequest(t: Tables, id: Id, plan: Plan, k: SocketId, generation: int, a: Ack): Handshake {
    Handshake(plan, k, generation, Fenced, Preflight(t, plan, generation), if a.id == id then Some(a) else None)
  }

  ghost predicate Asking(s: Hub, n: Hub, id: Id, h: Handshake) {
    && n.t == s.t && n.net == s.net.(transitions := s.net.transitions + {h.plan.device})
    && n.work.handshakes == s.work.handshakes[id := h]
    && n.work.pending == s.work.pending[PendingKey(h.plan.kind, h.plan.device) := id]
  }

  lemma FenceRaises(s: Hub, id: Id, plan: Plan, k: SocketId)
    requires Unhindered(s, id, plan, k) && plan.kind != Blackout
    ensures Asking(s, DoFence(s, id, plan), id, Handshake(plan, k, s.net.sockets[k].generation, Fenced, None, None))
  {
  }

  lemma RecheckReads(s: Hub, n: Hub, id: Id, h: Handshake)
    requires Asking(s, n, id, h) && h.phase == Fenced && h.config.None?
    ensures Asking(s, DoRecheck(n, id), id, h.(config := Preflight(s.t, h.plan, h.generation)))
  {
    hide Preflight;
  }

  lemma AnswerArrives(s: Hub, n: Hub, id: Id, k: SocketId, h: Handshake, a: Ack)
    requires Unhindered(s, id, h.plan, k) && Asking(s, n, id, h) && h.socket == k && h.phase == Fenced && h.ack.None?
    ensures Asking(s, DoDeliver(n, k, h.plan.kind, a), id, h.(ack := if a.id == id then Some(a) else None))
  {
    hide NoPending, Excluded;
  }

  lemma UnlockedWhileAsking(s: Hub, n: Hub, id: Id, h: Handshake)
    requires s.net.closing.None? && Asking(s, n, id, h)
    ensures n.net.closing.None?
  {
  }

  lemma RequestIsAnswered(s: Hub, id: Id, plan: Plan, k: SocketId, a: Ack)
    requires Unhindered(s, id, plan, k) && plan.kind != Blackout
    ensures Asking(s, Run(s, MoveSteps(id, plan, k, a)[..3]), id,
                   AnsweredRequest(s.t, id, plan, k, s.net.sockets[k].generation, a))
  {
    hide Run, Asking, DoFence, DoRecheck, DoDeliver, Preflight, Excluded, NoPending;
    hide DoLink, DoWorld, DoResult, DoDispatch, DoScope;
    var steps := MoveSteps(id, plan, k, a);
    var h := Handshake(plan, k, s.net.sockets[k].generation, Fenced, None, None);
    var n1 := DoFence(s, id, plan);
    FenceRaises(s, id, plan, k);
    UnlockedWhileAsking(s, n1, id, h);
    RecheckReads(s, n1, id, h);
    var asked := h.(config := Preflight(s.t, plan, h.generation));
    UnlockedWhileAsking(s, DoRecheck(n1, id), id, asked);
    AnswerArrives(s, DoRecheck(n1, id), id, k, asked, a);
    RunThree(s, steps[0], steps[1], steps[2]);
    assert steps[..3] == [steps[0], steps[1], steps[2]];
  }

  ghost predicate Ready(s: Hub, id: Id, h: Handshake) {
    id != NO_ID && h.plan.actor != NO_ID && h.plan.challenge != NO_ID && 0 < h.generation &&
    h.plan.kind != Blackout && h.config == Preflight(s.t, h.plan, h.generation)
  }

  lemma AnsweredCommits(s: Hub, id: Id, h: Handshake)
    requires Ready(s, id, h) && AckMatches(id, h)
    ensures var r := CommitTables(s.t, id, h);
            && (r.Some? <==> AnswersAsAsked(id, h.plan, h.generation, h.config.value, h.ack.value))
            && (r.Some? ==> r.value.assignments == s.t.assignments[h.plan.device := MovedRow(h.plan)] &&
                            |r.value.log| == |s.t.log| + 1)
  {
    hide HasPendingCommand, LightingConfig, PublishedFor;
    match h.plan.kind {
      case Activation =>
        if h.config.value != NO_ID { PlannedActivationCommits(s.t, ActivationInput(id, h)); }
      case TabletMove => TabletPreflightAgrees(s.t, TabletInput(id, h));
      case LaserMove =>
        if LaserSafe(h.ack.value.observation) { LaserPreflightAgrees(s.t, LaserInput(id, h)); }
    }
  }

  /** The handshake ended in a commit, which moved this one row; or it left the tables as they were. */
  ghost predicate EndsAs(s: Hub, n: Hub, plan: Plan, k: SocketId, committed: bool) {
    if committed
    then n.net.closing == Some(k) && n.t.assignments == s.t.assignments[plan.device := MovedRow(plan)] &&
         |n.t.log| == |s.t.log| + 1
    else n.net.closing.None? && n.t == s.t
  }

  lemma CommitEnds(s: Hub, m: Hub, id: Id, plan: Plan, k: SocketId, a: Ack)
    requires Unhindered(s, id, plan, k) && plan.kind != Blackout
    requires Asking(s, m, id, AnsweredRequest(s.t, id, plan, k, s.net.sockets[k].generation, a))
    ensures var g := s.net.sockets[k].generation;
            var p := Preflight(s.t, plan, g);
            EndsAs(s, DoCommit(m, id), plan, k, p.Some? && AnswersAsAsked(id, plan, g, p.value, a))
  {
    hide Preflight, CommitTables, NoPending, Excluded, MovedRow, LaserSafe, AllZero;
    var h := AnsweredRequest(s.t, id, plan, k, s.net.sockets[k].generation, a);
    assert ReadyToCommit(m, id) <==> AckMatches(id, h);
    if AckMatches(id, h) { AnsweredCommits(s, id, h); }
  }

  /** From any state in which nothing stands in its way, a handshake moves the device exactly when the
      preflight admits the plan and the device answers as asked; otherwise no table changes. */
  lemma AdmittedMoveCommits(s: Hub, id: Id, plan: Plan, k: SocketId, a: Ack)
    requires Unhindered(s, id, plan, k) && plan.kind != Blackout
    ensures var g := s.net.sockets[k].generation;
            var p := Preflight(s.t, plan, g);
            EndsAs(s, Run(s, MoveSteps(id, plan, k, a)), plan, k, p.Some? && AnswersAsAsked(id, plan, g, p.value, a))
  {
    hide Run, DoCommit, Preflight, AnswersAsAsked, EndsAs, NoPending, Excluded, Live;
    var steps := MoveSteps(id, plan, k, a);
    RunConcat(s, steps[..3], steps[3..]);
    assert steps[..3] + steps[3..] == steps;
    RequestIsAnswered(s, id, plan, k, a);
    var m := Run(s, steps[..3]);
    assert steps[3..] == [Handshaking(Commit(id))];
    RunOne(m, Handshaking(Commit(id)));
    CommitEnds(s, m, id, plan, k, a);
  }

  // ---------------------------------------------------------------- a reserved transfer

  function RequestOf(plan: Plan): TransferRequest {
    TransferRequest(plan.device, plan.fromProject, plan.toProject, plan.epoch)
  }

  /** A transfer may be reserved under this id. */
  ghost predicate Reservable(s: Hub, id: Id, plan: Plan, k: SocketId) {
    && Unhindered(s, id, plan, k) && plan.kind == Blackout && plan.device != NO_ID
    && plan.fromProject != plan.toProject && 1 <= plan.epoch
    && id !in s.t.intents && FindTransfer(s.t.log, plan.device, id).None?
  }

  function RequestSteps(id: Id, plan: Plan, k: SocketId, generation: int, a: Ack): seq<Action> {
    [Handshaking(Reserve(id, plan, generation)), Handshaking(Fence(id, plan)), Handshaking(DeliverAck(k, Blackout, a))]
  }

  function CommitSteps(id: Id, env: Env): seq<Action> {
    [Handshaking(Verify(id)), World(SetEnvironment(env)), Handshaking(Commit(id))]
  }

  function ReservedTables(t: Tables, id: Id, plan: Plan, generation: int): Tables {
    ReserveIntent(t, RequestOf(plan), id, generation, MAX_CHANNELS, plan.actor, plan.challenge)
  }

  ghost predicate Underway(s: Hub, n: Hub, t: Tables, id: Id, h: Handshake) {
    n.t == t && n.net == s.net && id in n.work.handshakes && n.work.handshakes[id] == h
  }

  lemma ReserveAndFence(s: Hub, id: Id, plan: Plan, k: SocketId)
    requires Reservable(s, id, plan, k)
    ensures var g := s.net.sockets[k].generation;
            var t := ReservedTables(s.t, id, plan, g);
            var n1 := DoReserve(s, id, plan, g);
            var n2 := DoFence(n1, id, plan);
            && Underway(s, n1, t, id, Handshake(plan, 0, g, Reserved, None, None))
            && Underway(s, n2, t, id, Handshake(plan, k, g, Fenced, None, None))
            && PendingKey(Blackout, plan.device) in n2.work.pending
            && n2.work.pending[PendingKey(Blackout, plan.device)] == id
  {
    hide FindTransfer, ExpireStale;
  }

  lemma TransferIsAnswered(s: Hub, n: Hub, t: Tables, id: Id, h: Handshake, k: SocketId, a: Ack)
    requires Unhindered(s, id, h.plan, k) && h.plan.kind == Blackout && h.socket == k
    requires h.phase == Fenced && h.ack.None? && Underway(s, n, t, id, h)
    requires var key := PendingKey(Blackout, h.plan.device); key in n.work.pending && n.work.pending[key] == id
    requires h.generation == s.net.sockets[k].generation
    ensures var answered := h.(ack := if a.id == id then Some(a) else None);
            var fits := AnswersAsAsked(id, h.plan, h.generation, NO_ID, a);
            && Underway(s, DoDeliver(n, k, Blackout, a), t, id, answered)
            && Underway(s, DoVerify(DoDeliver(n, k, Blackout, a), id), t, id,
                        if fits then answered.(phase := Verified) else answered)
  {
    hide NoPending, Excluded, AllZero, LaserSafe;
  }

  lemma FreshTransferMoves(t: Tables, v: VerifiedTransfer)
    requires FindTransfer(t.log, v.device, v.key).None? && CommitTransfer(t, v, NO_ID).Some?
    ensures var n := CommitTransfer(t, v, NO_ID).value.tables;
            var row := Assignment(NextTransferState(v.toProject), v.toProject, NO_ID, v.epoch + 1);
            n.assignments == t.assignments[v.device := row] && |n.log| == |t.log| + 1
  {
    hide FindTransfer, HasPendingCommand, Activations, StateShape;
  }

  ghost predicate TransferEndsAs(s: Hub, n: Hub, plan: Plan, k: SocketId, committed: bool) {
    if committed
    then n.net.closing == Some(k) && n.t.assignments == s.t.assignments[plan.device := MovedRow(plan)] &&
         |n.t.log| == |s.t.log| + 1
    else n.net.closing.None? && n.t.assignments == s.t.assignments && n.t.log == s.t.log
  }

  /** The commit of a reserved transfer at time `later`. */
  lemma ReservedCommits(s: Hub, n: Hub, id: Id, plan: Plan, k: SocketId, a: Ack, later: int)
    requires Reservable(s, id, plan, k) && s.t.env.now <= later
    requires var g := s.net.sockets[k].generation;
             var answered := Handshake(plan, k, g, Fenced, None, if a.id == id then Some(a) else None);
             Underway(s, n, ReservedTables(s.t, id, plan, g), id,
                      if AnswersAsAsked(id, plan, g, NO_ID, a) then answered.(phase := Verified) else answered)
    ensures var g := s.net.sockets[k].generation;
            TransferEndsAs(s, DoCommit(DoWorld(n, SetEnvironment(s.t.env.(now := later))), id), plan, k,
                           && TransferPreflight(s.t, RequestOf(plan)) && plan.epoch < MAX_INT64
                           && AnswersAsAsked(id, plan, g, NO_ID, a) && later < s.t.env.now + RESERVATION_TTL_US)
  {
    hide TransferPreflight, CommitTransfer, FindTransfer, ExpireStale, NoPending, Excluded, LaserSafe;
    var g := s.net.sockets[k].generation;
    if AnswersAsAsked(id, plan, g, NO_ID, a) {
      ReservedTransferCommits(s.t, RequestOf(plan), id, g, plan.actor, plan.challenge, a.levels, later, NO_ID);
      var h := n.work.handshakes[id];
      assert TransferInput(id, h) == ReservedInput(RequestOf(plan), id, g, plan.actor, plan.challenge, a.levels);
      var t := DoWorld(n, SetEnvironment(s.t.env.(now := later))).t;
      if CommitTransfer(t, TransferInput(id, h), NO_ID).Some? { FreshTransferMoves(t, TransferInput(id, h)); }
    }
  }

  lemma ReservableIsUnhindered(s: Hub, id: Id, plan: Plan, k: SocketId)
    requires Reservable(s, id, plan, k)
    ensures Unhindered(s, id, plan, k) && plan.kind == Blackout
  {
  }

  lemma ClockLeavesNet(s: Hub, env: Env)
    ensures DoWorld(s, SetEnvironment(env)).net == s.net
  {
  }

  /** The reservation, the request and the answer. */
  lemma TransferIsRequested(s: Hub, id: Id, plan: Plan, k: SocketId, a: Ack)
    requires Reservable(s, id, plan, k)
    ensures var g := s.net.sockets[k].generation;
            var answered := Handshake(plan, k, g, Fenced, None, if a.id == id then Some(a) else None);
            var t := ReservedTables(s.t, id, plan, g);
            var n := Run(s, RequestSteps(id, plan, k, g, a));
            && Underway(s, n, t, id, answered)
            && Underway(s, DoVerify(n, id), t, id,
                        if AnswersAsAsked(id, plan, g, NO_ID, a) then answered.(phase := Verified) else answered)
  {
    hide Run, Reservable, DoReserve, DoFence, DoDeliver, DoVerify, ReservedTables, AnswersAsAsked;
    hide DoWorld, DoLink, DoResult, DoDispatch, DoScope, Excluded, NoPending;
    ReservableIsUnhindered(s, id, plan, k);
    var g := s.net.sockets[k].generation;
    ReserveAndFence(s, id, plan, k);
    var n := DoFence(DoReserve(s, id, plan, g), id, plan);
    TransferIsAnswered(s, n, ReservedTables(s.t, id, plan, g), id, Handshake(plan, k, g, Fenced, None, None), k, a);
    var steps := RequestSteps(id, plan, k, g, a);
    RunThree(s, steps[0], steps[1], steps[2]);
  }

  /** A transfer that is reserved, requested, answered and then committed at time `later` moves the device
      exactly when the preflight admitted it, the answer is as asked, and the reservation has not ended. */
  lemma ReservedMoveCommits(s: Hub, id: Id, plan: Plan, k: SocketId, a: Ack, later: int)
    requires Reservable(s, id, plan, k) && s.t.env.now <= later
    ensures var g := s.net.sockets[k].generation;
            var steps := RequestSteps(id, plan, k, g, a) + CommitSteps(id, s.t.env.(now := later));
            TransferEndsAs(s, Run(s, steps), plan, k,
                           && TransferPreflight(s.t, RequestOf(plan)) && plan.epoch < MAX_INT64
                           && AnswersAsAsked(id, plan, g, NO_ID, a) && later < s.t.env.now + RESERVATION_TTL_US)
  {
    hide Run, Reservable, DoReserve, DoFence, DoDeliver, DoVerify, DoWorld, DoCommit, ReservedTables, AnswersAsAsked;
    hide TransferEndsAs, TransferPreflight, DoLink, DoResult, DoDispatch, DoScope, Excluded, NoPending, RequestSteps;
    ReservableIsUnhindered(s, id, plan, k);
    var last := CommitSteps(id, s.t.env.(now := later));
    var first := RequestSteps(id, plan, k, s.net.sockets[k].generation, a);
    RunConcat(s, first, last);
    TransferIsRequested(s, id, plan, k, a);
    var n := Run(s, first);
    RunThree(n, last[0], last[1], last[2]);
    ClockLeavesNet(DoVerify(n, id), s.t.env.(now := later));
    ReservedCommits(s, DoVerify(n, id), id, plan, k, a, later);
  }
}
