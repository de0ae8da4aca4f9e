/** Handshakes keep out of each other's way: one at a time behind the dispatch fence, one blackout request at a
    time, and no diagnostic probe beside a blackout request. */
module HandshakeExclusion {
  import opened StageTypes
  import opened AssignmentCommits
  import opened HubMachine

  /** The handshake runs behind the dispatch fence. */
  predicate Behind(h: Handshake) {
    h.plan.kind != Blackout
  }

  /** The handshake waits for the device's answer, or holds the fence. */
  predicate Busy(h: Handshake) {
    Behind(h) || h.phase == Fenced
  }

  ghost predicate Registered(s: Hub, id: Id)
    requires id in s.work.handshakes
  {
    var h := s.work.handshakes[id];
    var key := PendingKey(h.plan.kind, h.plan.device);
    && (Behind(h) ==> h.plan.device in s.net.transitions)
    && (Busy(h) ==> key in s.work.pending && s.work.pending[key] == id)
  }

  ghost predicate Exclusive(s: Hub) {
    && (forall id | id in s.work.handshakes :: Registered(s, id))
    && (forall i, j | i in s.work.handshakes && j in s.work.handshakes && i != j && Behind(s.work.handshakes[i]) &&
                      Behind(s.work.handshakes[j]) ::
          s.work.handshakes[i].plan.device != s.work.handshakes[j].plan.device)
    && (forall device | device in s.net.probes :: PendingKey(Blackout, device) !in s.work.pending)
  }

  /** Handshakes, requests, fences and probes are as before. */
  ghost predicate SameHandshakes(s: Hub, n: Hub) {
    && n.work.handshakes == s.work.handshakes && n.work.pending == s.work.pending
    && n.net.transitions == s.net.transitions && n.net.probes == s.net.probes
  }

  lemma SameIsExclusive(s: Hub, n: Hub)
    requires Exclusive(s) && SameHandshakes(s, n)
    ensures Exclusive(n)
  {
  }

  // ---------------------------------------------------------------- one step

  /** One handshake changes; its request, fence and phase go together. */
  ghost predicate OneChanges(s: Hub, n: Hub, id: Id) {
    && id in s.work.handshakes && id in n.work.handshakes
    && n.work.handshakes == s.work.handshakes[id := n.work.handshakes[id]]
    && n.work.handshakes[id].plan == s.work.handshakes[id].plan
    && (Busy(n.work.handshakes[id]) ==> Busy(s.work.handshakes[id]))
    && n.net.transitions == s.net.transitions && n.net.probes == s.net.probes
    && (n.work.pending == s.work.pending ||
        (!Busy(n.work.handshakes[id]) &&
         n.work.pending == DropPending(s.work.pending, s.work.handshakes[id].plan, id)))
  }

  lemma OneChangesKeeps(s: Hub, n: Hub, id: Id)
    requires Exclusive(s) && OneChanges(s, n, id)
    ensures Exclusive(n)
  {
    forall i | i in n.work.handshakes ensures Registered(n, i) { assert Registered(s, i); }
  }

  lemma FinishKeeps(s: Hub, id: Id)
    requires Exclusive(s)
    ensures Exclusive(DoFinish(s, id))
  {
    var n := DoFinish(s, id);
    forall i | i in n.work.handshakes ensures Registered(n, i) {
      assert Registered(s, i);
      assert id in s.work.handshakes ==> Registered(s, id);
    }
  }

  lemma ReserveKeeps(s: Hub, id: Id, plan: Plan, generation: int)
    requires Exclusive(s)
    ensures Exclusive(DoReserve(s, id, plan, generation))
  {
    hide ReserveIntent;
    var n := DoReserve(s, id, plan, generation);
    forall i | i in n.work.handshakes ensures Registered(n, i) {
      if i in s.work.handshakes { assert Registered(s, i); }
    }
  }

  lemma BlackoutFenceKeeps(s: Hub, id: Id, plan: Plan)
    requires Exclusive(s) && plan.kind == Blackout
    ensures Exclusive(DoFence(s, id, plan))
  {
    hide Live;
    var n := DoFence(s, id, plan);
    forall i | i in n.work.handshakes ensures Registered(n, i) {
      if i in s.work.handshakes { assert Registered(s, i); }
    }
  }

  lemma RaisedFenceKeeps(s: Hub, id: Id, plan: Plan)
    requires Exclusive(s) && plan.kind != Blackout
    ensures Exclusive(DoFence(s, id, plan))
  {
    hide Live, ReservationCurrent, NoPending, Excluded;
    var n := DoFence(s, id, plan);
    forall i | i in n.work.handshakes ensures Registered(n, i) {
      if i in s.work.handshakes { assert Registered(s, i); }
    }
  }

  lemma ChangesOne(s: Hub, a: HandshakeStep)
    requires a.Recheck? || a.Verify? || a.Commit? || a.DeliverAck?
    ensures var n := DoHandshake(s, a);
            SameHandshakes(s, n) || OneChanges(s, n, if a.DeliverAck? then a.ack.id else a.id)
  {
    hide Preflight, AckMatches, Live, CommitTables, DropPending;
  }

  lemma LeavesHandshakes(s: Hub, a: HandshakeStep)
    requires a.CancelReservation? || a.CloseCommitted? || a.Migrate?
    ensures SameHandshakes(s, DoHandshake(s, a))
  {
    hide CancelIntent, MigrateLegacy;
  }

  lemma HandshakeKeeps(s: Hub, a: HandshakeStep)
    requires Exclusive(s)
    ensures Exclusive(DoHandshake(s, a))
  {
    hide Exclusive, SameHandshakes, OneChanges, DoReserve, DoCancel, DoFence, DoRecheck, DoDeliver, DoVerify, DoCommit;
    hide DoFinish, DoMigrate, DoCloseCommitted;
    match a {
      case Reserve(id, plan, generation) => ReserveKeeps(s, id, plan, generation);
      case Fence(id, plan) =>
        if plan.kind == Blackout { BlackoutFenceKeeps(s, id, plan); } else { RaisedFenceKeeps(s, id, plan); }
      case Finish(id) => FinishKeeps(s, id);
      case Recheck(id) => ChangesKeep(s, a, id);
      case Verify(id) => ChangesKeep(s, a, id);
      case Commit(id) => ChangesKeep(s, a, id);
      case DeliverAck(_, _, ack) => ChangesKeep(s, a, ack.id);
      case _ => LeavesHandshakes(s, a); SameIsExclusive(s, DoHandshake(s, a));
    }
  }

  lemma ChangesKeep(s: Hub, a: HandshakeStep, id: Id)
    requires Exclusive(s) && (a.Recheck? || a.Verify? || a.Commit? || a.DeliverAck?)
    requires id == if a.DeliverAck? then a.ack.id else a.id
    ensures Exclusive(DoHandshake(s, a))
  {
    hide Exclusive, SameHandshakes, OneChanges, DoHandshake;
    ChangesOne(s, a);
    if SameHandshakes(s, DoHandshake(s, a)) {
      SameIsExclusive(s, DoHandshake(s, a));
    } else {
      OneChangesKeeps(s, DoHandshake(s, a), id);
    }
  }

  lemma DispatchLeavesHandshakes(s: Hub, a: DispatchStep)
    ensures SameHandshakes(s, DoDispatch(s, a))
  {
    hide DoAsk, DoFind, DoDuplicate, DoStore, DoAbort, DoFail, DoCheck, DoBind, DoSend, SameHandshakes;
    match a {
      case Check(c) => CheckLeavesHandshakes(s, c);
      case Bind(c, capable) => BindLeavesHandshakes(s, c, capable);
      case Send(c, delivered) => SendLeavesHandshakes(s, c, delivered);
      case _ => OtherLeavesHandshakes(s, a);
    }
  }

  lemma OtherLeavesHandshakes(s: Hub, a: DispatchStep)
    requires !a.Check? && !a.Bind? && !a.Send?
    ensures SameHandshakes(s, DoDispatch(s, a))
  {
    hide DeviceMay, StandsFor, Fresh, DoCheck, DoBind, DoSend, Complete;
  }

  lemma CheckLeavesHandshakes(s: Hub, c: Id)
    ensures SameHandshakes(s, DoCheck(s, c))
  {
    hide ScopeMay, SetDispatch, EndDispatch;
    if c in s.work.dispatches { StagesLeaveHandshakes(s, c, s.work.dispatches[c].(stage := Checked)); }
  }

  lemma StagesLeaveHandshakes(s: Hub, c: Id, d: Dispatch)
    ensures SameHandshakes(s, SetDispatch(s, c, d)) && SameHandshakes(s, EndDispatch(s, c))
  {
  }

  lemma BindLeavesHandshakes(s: Hub, c: Id, capable: bool)
    ensures SameHandshakes(s, DoBind(s, c, capable))
  {
    hide CanBind;
  }

  lemma SendLeavesHandshakes(s: Hub, c: Id, delivered: bool)
    ensures SameHandshakes(s, DoSend(s, c, delivered))
  {
    hide FrameOf, Unbound, Shut;
  }

  lemma ResultLeavesHandshakes(s: Hub, a: ResultStep)
    ensures SameHandshakes(s, DoResult(s, a))
  {
    hide MayAnswer, Starting, Unbound, Complete;
  }

  lemma ScopeKeeps(s: Hub, a: ScopeStep)
    requires Exclusive(s)
    ensures Exclusive(DoScope(s, a))
  {
    hide ScopeAuthoritative, ScopeReported;
    var n := DoScope(s, a);
    forall i | i in n.work.handshakes ensures Registered(n, i) { assert Registered(s, i); }
  }

  lemma LinkKeeps(s: Hub, a: LinkStep)
    requires Exclusive(s)
    ensures Exclusive(DoLink(s, a))
  {
    hide UpsertV1, RegisterV2;
    var n := DoLink(s, a);
    forall i | i in n.work.handshakes ensures Registered(n, i) { assert Registered(s, i); }
  }

  lemma WorldLeavesHandshakes(s: Hub, a: WorldStep)
    ensures SameHandshakes(s, DoWorld(s, a))
  {
  }

  lemma StepKeepsExclusive(s: Hub, a: Action)
    requires Exclusive(s)
    ensures Exclusive(Apply(s, a))
  {
    hide Exclusive, SameHandshakes, DoWorld, DoLink, DoDispatch, DoResult, DoScope, DoHandshake;
    if s.net.closing.Some? && NeedsLock(a) { return; }
    match a {
      case World(x) => WorldLeavesHandshakes(s, x); SameIsExclusive(s, DoWorld(s, x));
      case Link(x) => LinkKeeps(s, x);
      case Dispatching(x) => DispatchLeavesHandshakes(s, x); SameIsExclusive(s, DoDispatch(s, x));
      case Result(x) => ResultLeavesHandshakes(s, x); SameIsExclusive(s, DoResult(s, x));
      case Scoping(x) => ScopeKeeps(s, x);
      case Handshaking(x) => HandshakeKeeps(s, x);
    }
  }

  // ---------------------------------------------------------------- runs

  lemma {:induction false} RunKeepsExclusive(env: Env, generation: int, actions: seq<Action>)
    ensures Exclusive(Run(Init(env, generation), actions))
  {
    hide Apply;
    if actions != [] {
      hide Exclusive;
      RunKeepsExclusive(env, generation, actions[..|actions| - 1]);
      StepKeepsExclusive(Run(Init(env, generation), actions[..|actions| - 1]), actions[|actions| - 1]);
    }
  }

  /** In every run, two handshakes of one device that wait for its answer or hold its fence are a blackout
      request and one other; while that other one is there, no command of the device is bound; and no lighting
      probe runs beside the blackout request. */
  lemma OneAtATime(env: Env, generation: int, actions: seq<Action>, device: Id)
    ensures var s := Run(Init(env, generation), actions);
            && (forall i, j | i in s.work.handshakes && j in s.work.handshakes && i != j &&
                              s.work.handshakes[i].plan.device == device == s.work.handshakes[j].plan.device &&
                              Busy(s.work.handshakes[i]) && Busy(s.work.handshakes[j]) ::
                  (s.work.handshakes[i].plan.kind == Blackout) != (s.work.handshakes[j].plan.kind == Blackout))
            && (forall i, c, capable | i in s.work.handshakes && s.work.handshakes[i].plan.device == device &&
                                       s.work.handshakes[i].plan.kind != Blackout && AtStage(s, c, Stored) &&
                                       s.work.dispatches[c].device == device ::
                  DoBind(s, c, capable).work.inflight == s.work.inflight)
            && (forall i | i in s.work.handshakes && s.work.handshakes[i].plan.device == device &&
                           s.work.handshakes[i].plan.kind == Blackout && s.work.handshakes[i].phase == Fenced ::
                  device !in s.net.probes)
  {
    hide Run;
    RunKeepsExclusive(env, generation, actions);
    var s := Run(Init(env, generation), actions);
    assert forall id | id in s.work.handshakes :: Registered(s, id);
  }

  // ---------------------------------------------------------------- when a request goes out

  /** A request of this kind must not be pending beside it. */
  predicate Clashes(kind: HandshakeKind, other: HandshakeKind) {
    || other == kind
    || (other == Blackout)
    || (kind == Activation && other == TabletMove)
    || (kind == LaserMove && (other == TabletMove || other == Activation))
  }

  /** The device's current socket, if it has one, is its own. */
  ghost predicate OwnSocket(s: Hub, device: Id) {
    device in s.net.current ==>
      (s.net.current[device] in s.net.sockets && s.net.sockets[s.net.current[device]].device == device)
  }

  /** A request goes out if and only if the device has an open current v2 socket, no clashing request and no probe
      is pending; a blackout request besides only under its own reservation, made for that socket generation and
      not ended, any other one only when the fence is not raised yet. */
  lemma RequestGoesOutExactly(s: Hub, id: Id, plan: Plan)
    requires id != NO_ID && plan.actor != NO_ID && (plan.kind != Blackout ==> id !in s.work.handshakes)
    requires OwnSocket(s, plan.device)
    ensures var n := DoFence(s, id, plan);
            n != s <==>
            && !s.net.stopped && plan.device in s.net.current
            && var k := s.net.current[plan.device];
            && s.net.sockets[k].open && s.net.sockets[k].v2
            && (forall kind | Clashes(plan.kind, kind) :: PendingKey(kind, plan.device) !in s.work.pending)
            && plan.device !in s.net.probes
            && if plan.kind == Blackout then
                 && id in s.work.handshakes && s.work.handshakes[id].plan == plan &&
                    s.work.handshakes[id].phase == Reserved
                 && s.work.handshakes[id].generation == s.net.sockets[k].generation
                 && id in s.t.intents && s.t.env.now < s.t.intents[id].expires
               else plan.device !in s.net.transitions
  {
    ClashesAreExcluded(s.work.pending, plan);
    var n := DoFence(s, id, plan);
    if id in n.work.handshakes && !(id in s.work.handshakes && s.work.handshakes[id] == n.work.handshakes[id]) {
      assert n.work.handshakes != s.work.handshakes;
    }
  }

  lemma ClashesAreExcluded(pending: map<PendingKey, Id>, plan: Plan)
    ensures NoPending(pending, Excluded(plan.kind), plan.device) <==>
            forall kind | Clashes(plan.kind, kind) :: PendingKey(kind, plan.device) !in pending
  {
    assert forall kind :: kind in Excluded(plan.kind) <==> Clashes(plan.kind, kind);
  }

  /** A probe starts beside no other one and no blackout request, on an open current v2 socket, and lasts until it
      ends or the Hub restarts. */
  lemma ProbeGoesOn(s: Hub, a: ScopeStep, device: Id)
    requires OwnSocket(s, device)
    ensures device in DoScope(s, a).net.probes <==>
            || (device in s.net.probes && a != EndProbe(device))
            || (a == StartProbe(device) && !s.net.stopped && device in s.net.current &&
                s.net.sockets[s.net.current[device]].open && s.net.sockets[s.net.current[device]].v2 &&
                PendingKey(Blackout, device) !in s.work.pending)
  {
    hide ScopeAuthoritative, ScopeReported, RecordAck;
  }

  // ---------------------------------------------------------------- how one handshake goes on

  /** The device's answer repeats the request in every field, with all twelve channels at zero, and its socket is
      still the live one. */
  ghost predicate Confirmed(s: Hub, id: Id, h: Handshake) {
    && h.plan.kind == Blackout && h.phase == Fenced && h.ack.Some?
    && var a := h.ack.value;
    && a.id == id && a.device == h.plan.device && a.epoch == h.plan.epoch && a.generation == h.generation
    && a.challenge == h.plan.challenge && a.safe && |a.levels| == 12 && (forall i | 0 <= i < 12 :: a.levels[i] == 0)
    && !s.net.stopped && h.socket in s.net.sockets && s.net.sockets[h.socket].open
    && s.net.sockets[h.socket].device in s.net.current && s.net.current[s.net.sockets[h.socket].device] == h.socket
  }

  /** A handshake keeps its plan and generation. It takes one answer, from its own socket and only once; a blackout
      request is verified exactly when its answer confirms it. */
  ghost predicate HandshakeGoesOn(s: Hub, a: HandshakeStep, n: Hub, id: Id) {
    id in s.work.handshakes ==>
      var h := s.work.handshakes[id];
      if a == Finish(id) then id !in n.work.handshakes
      else
        && id in n.work.handshakes
        && var g := n.work.handshakes[id];
        && g.plan == h.plan && g.generation == h.generation
        && (g.ack == h.ack ||
            (h.ack.None? && h.phase == Fenced && g.ack.Some? && g.ack.value.id == id &&
             a == DeliverAck(h.socket, h.plan.kind, g.ack.value)))
        && (g.config == h.config ||
            (a == Recheck(id) && h.phase == Fenced && g.config == Preflight(s.t, h.plan, h.generation)))
        && (g.socket == h.socket || (a == Fence(id, h.plan) && g.phase == Fenced))
        && match g.phase
           case Reserved => h.phase == Reserved
           case Fenced => (h.phase == Fenced && !(a == Verify(id) && Confirmed(s, id, h))) || a == Fence(id, h.plan)
           case Verified => h.phase == Verified || (a == Verify(id) && Confirmed(s, id, h))
           case Done => h.phase == Done || (a == Commit(id) && ReadyToCommit(s, id))
  }

  lemma VerifyConfirms(s: Hub, id: Id)
    requires id in s.work.handshakes
    ensures MayVerify(s, id) <==> Confirmed(s, id, s.work.handshakes[id])
  {
  }

  lemma ReserveGoesOn(s: Hub, a: HandshakeStep, id: Id)
    requires a.Reserve? || a.Migrate? || a.CloseCommitted? || a.CancelReservation?
    ensures HandshakeGoesOn(s, a, DoHandshake(s, a), id)
  {
    hide Live, NoPending, Excluded, CancelIntent, MigrateLegacy, ReserveIntent, DropPending, Confirmed, ReadyToCommit;
    hide DoRecheck, DoDeliver, DoVerify, DoCommit, DoFence, DoFinish, Preflight;
  }

  lemma FenceGoesOn(s: Hub, a: HandshakeStep, id: Id)
    requires a.Fence? || a.Finish?
    ensures HandshakeGoesOn(s, a, DoHandshake(s, a), id)
  {
    hide Live, NoPending, Excluded, DropPending, Confirmed, ReadyToCommit;
    hide DoRecheck, DoDeliver, DoVerify, DoCommit, DoReserve, DoMigrate, DoCancel, Preflight;
  }

  /** How every handshake goes on in one step of any of them. */
  lemma HandshakesGoOn(s: Hub, a: HandshakeStep, id: Id)
    ensures HandshakeGoesOn(s, a, DoHandshake(s, a), id)
  {
    hide CommitTables, AckMatches, Live, DoReserve, DoFence, DoFinish, DoCancel, DoMigrate, Confirmed, MayVerify;
    hide Preflight, DropPending;
    if a.Recheck? || a.DeliverAck? || a.Verify? || a.Commit? {
      if a.Verify? && a.id in s.work.handshakes { VerifyConfirms(s, a.id); }
    } else if a.Fence? || a.Finish? {
      FenceGoesOn(s, a, id);
    } else {
      ReserveGoesOn(s, a, id);
    }
  }
}
