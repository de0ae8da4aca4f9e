/** Exactly which frames name the scope that is ACTIVE when they are written: those whose device was not
    moved between the moment the command was bound to its socket and the write. */
module FrameExactness {
  import opened StageTypes
  import opened AssignmentCommits
  import opened HubMachine
  import opened CommandFence
  import opened FenceTheorems
  import opened AssignmentHistory

  /** An audit row of this device lies in this part of the log. */
  ghost predicate Moved(log: seq<Audit>, device: Id, i: nat, j: nat) {
    exists m :: i <= m < j && m < |log| && log[m].device == device
  }

  /** As long as its device is not moved, an open v2 socket's bound command names the stored row; after
      a move the row has a later epoch. */
  ghost predicate BoundRow(s: Hub, d: Dispatch)
    requires d.stage.Bound?
  {
    d.stage.socket in s.net.sockets && s.net.sockets[d.stage.socket].open && s.net.sockets[d.stage.socket].v2 ==>
      && d.stage.since <= |s.t.log| && d.device in s.t.assignments
      && if Moved(s.t.log, d.device, d.stage.since, |s.t.log|) then d.stage.epoch < s.t.assignments[d.device].epoch
         else s.t.assignments[d.device] == Assignment(Active, d.project, d.snapshot, d.stage.epoch)
  }

  ghost predicate BoundRows(s: Hub) {
    forall c | c in s.work.dispatches && s.work.dispatches[c].stage.Bound? :: BoundRow(s, s.work.dispatches[c])
  }

  ghost predicate FrameDecided(log: seq<Audit>, f: Frame) {
    f.v2 ==> f.since <= f.until <= |log| && (FrameExact(f) <==> !Moved(log, f.device, f.since, f.until))
  }

  ghost predicate FramesDecided(s: Hub) {
    forall i | 0 <= i < |s.trace.frames| :: FrameDecided(s.t.log, s.trace.frames[i])
  }

  // ---------------------------------------------------------------- steps that bind nothing

  /** What is bound was bound, to a socket that was open if it is open now. */
  ghost predicate BindsNothing(s: Hub, n: Hub) {
    forall c | c in n.work.dispatches && n.work.dispatches[c].stage.Bound? ::
      && c in s.work.dispatches && s.work.dispatches[c] == n.work.dispatches[c]
      && var k := n.work.dispatches[c].stage.socket;
      && (k in n.net.sockets && n.net.sockets[k].open && n.net.sockets[k].v2 ==>
            k in s.net.sockets && s.net.sockets[k].open && s.net.sockets[k].v2)
  }

  /** Dispatches stay or are forgotten; sockets that are known do not open again. */
  ghost predicate KeepsBound(s: Hub, n: Hub) {
    && (n.work.dispatches == s.work.dispatches || n.work.dispatches == map[])
    && (forall k | k in s.net.sockets :: k in n.net.sockets && n.net.sockets[k].v2 == s.net.sockets[k].v2 &&
          (n.net.sockets[k].open ==> s.net.sockets[k].open))
  }

  lemma KeptBindsNothing(s: Hub, n: Hub)
    requires FenceInv(s) && KeepsBound(s, n)
    ensures BindsNothing(s, n)
  {
  }

  lemma LinkKeepsBound(s: Hub, a: LinkStep)
    ensures KeepsBound(s, DoLink(s, a))
  {
    hide UpsertV1, RegisterV2;
  }

  lemma ResultKeepsBound(s: Hub, a: ResultStep)
    ensures KeepsBound(s, DoResult(s, a))
  {
    hide MayAnswer, Complete;
  }

  lemma ScopeKeepsBound(s: Hub, a: ScopeStep)
    ensures KeepsBound(s, DoScope(s, a))
  {
    hide ScopeAuthoritative, ScopeReported, RecordAck;
  }

  lemma CommitKeepsBound(s: Hub, a: HandshakeStep)
    requires a.Commit? || a.Migrate?
    ensures KeepsBound(s, DoHandshake(s, a))
  {
    hide CommitTables, MigrateLegacy, ReadyToCommit, AckMatches;
  }

  lemma HandshakeKeepsBound(s: Hub, a: HandshakeStep)
    ensures KeepsBound(s, DoHandshake(s, a))
  {
    hide DoReserve, DoCancel, DoFence, DoRecheck, DoDeliver, DoVerify, DoCommit, DoFinish, DoMigrate, DoCloseCommitted;
    if a.Commit? || a.Migrate? {
      CommitKeepsBound(s, a);
    } else if a.Reserve? || a.CancelReservation? {
      ReservationMovesNoRow(s, a);
    } else if a.Fence? {
      FenceMovesNoRow(s, a.id, a.plan);
    } else {
      AnswerMovesNoRow(s, a);
    }
  }

  lemma SendBindsNothing(s: Hub, c: Id, delivered: bool)
    requires FenceInv(s)
    ensures BindsNothing(s, DoSend(s, c, delivered))
  {
  }

  lemma StepBindsNothing(s: Hub, a: Action)
    requires FenceInv(s) && !(a.Dispatching? && a.dispatch.Bind?)
    ensures BindsNothing(s, Apply(s, a))
  {
    hide FenceInv, KeepsBound, BindsNothing, NeedsLock, DoLink, DoDispatch, DoResult, DoScope, DoHandshake, DoBind,
         DoSend;
    if Apply(s, a) == s {
      StayingBindsNothing(s);
      return;
    }
    match a {
      case World(x) => WorldBindsNothing(s, x);
      case Link(x) => LinkKeepsBound(s, x); KeptBindsNothing(s, DoLink(s, x));
      case Dispatching(x) => DispatchBindsNothing(s, x);
      case Result(x) => ResultKeepsBound(s, x); KeptBindsNothing(s, DoResult(s, x));
      case Scoping(x) => ScopeKeepsBound(s, x); KeptBindsNothing(s, DoScope(s, x));
      case Handshaking(x) => HandshakeKeepsBound(s, x); KeptBindsNothing(s, DoHandshake(s, x));
    }
  }

  lemma StayingBindsNothing(s: Hub)
    ensures BindsNothing(s, s)
  {
  }

  lemma WorldBindsNothing(s: Hub, a: WorldStep)
    ensures BindsNothing(s, DoWorld(s, a))
  {
  }

  lemma DispatchBindsNothing(s: Hub, a: DispatchStep)
    requires FenceInv(s) && !a.Bind?
    ensures BindsNothing(s, DoDispatch(s, a))
  {
    hide FenceInv, DoAsk, DoCheck, DoFind, DoDuplicate, DoStore, DoAbort, DoBind, DoSend, DoFail;
    if a.Send? { SendBindsNothing(s, a.command, a.delivered); } else { CountersMove(s, a); }
  }

  // ---------------------------------------------------------------- one step

  lemma MovedGrows(log: seq<Audit>, more: seq<Audit>, device: Id, i: nat, j: nat)
    requires log <= more && j <= |log|
    ensures Moved(log, device, i, j) == Moved(more, device, i, j)
  {
    if Moved(log, device, i, j) {
      var m :| i <= m < j && m < |log| && log[m].device == device;
      assert more[m] == log[m];
    }
  }

  /** A move of the device raises the epoch of its row. */
  lemma MoveKeepsBoundRow(s: Hub, n: Hub, device: Id, d: Dispatch)
    requires d.stage.Bound? && d.stage.since <= |s.t.log| && d.device in s.t.assignments && Audited(s, n, device)
    requires var a := s.t.assignments[d.device];
             if Moved(s.t.log, d.device, d.stage.since, |s.t.log|) then d.stage.epoch < a.epoch
             else a == Assignment(Active, d.project, d.snapshot, d.stage.epoch)
    ensures var a := n.t.assignments[d.device];
            if Moved(n.t.log, d.device, d.stage.since, |n.t.log|) then d.stage.epoch < a.epoch
            else a == Assignment(Active, d.project, d.snapshot, d.stage.epoch)
  {
    MovedGrows(s.t.log, n.t.log, d.device, d.stage.since, |s.t.log|);
    var last := |s.t.log|;
    if device == d.device {
      assert n.t.log[last].device == d.device;
      assert Moved(n.t.log, d.device, d.stage.since, |n.t.log|);
    } else if Moved(n.t.log, d.device, d.stage.since, |n.t.log|) {
      var m :| d.stage.since <= m < |n.t.log| && n.t.log[m].device == d.device;
      assert m != last;
      assert Moved(n.t.log, d.device, d.stage.since, last);
    }
  }

  lemma HistoryKeepsBoundRow(s: Hub, n: Hub, d: Dispatch)
    requires d.stage.Bound? && BoundRow(s, d) && HistoryStep(s, n)
    requires var k := d.stage.socket;
             k in n.net.sockets && n.net.sockets[k].open && n.net.sockets[k].v2 ==>
               k in s.net.sockets && s.net.sockets[k].open && s.net.sockets[k].v2
    ensures BoundRow(n, d)
  {
    hide ReplayRow, EpochsOf, Moved;
    var k := d.stage.socket;
    if k in n.net.sockets && n.net.sockets[k].open && n.net.sockets[k].v2 {
      if device :| Audited(s, n, device) { MoveKeepsBoundRow(s, n, device, d); }
    }
  }

  lemma BindIsExact(s: Hub, c: Id, capable: bool)
    requires FenceInv(s) && BoundRows(s) && s.net.closing.None?
    ensures BoundRows(DoBind(s, c, capable))
  {
    var n := DoBind(s, c, capable);
    forall b | b in n.work.dispatches && n.work.dispatches[b].stage.Bound? ensures BoundRow(n, n.work.dispatches[b]) {
      if b != c || n == s {
        assert BoundRow(s, s.work.dispatches[b]);
      } else {
        var k := n.work.dispatches[b].stage.socket;
        if n.net.sockets[k].open { assert Settled(s, k); }
      }
    }
  }

  lemma StepKeepsBoundRows(s: Hub, a: Action)
    requires FenceInv(s) && BoundRows(s)
    ensures BoundRows(Apply(s, a))
  {
    hide Apply, FenceInv, HistoryStep, BoundRow;
    if a.Dispatching? && a.dispatch.Bind? {
      BindKeepsBoundRows(s, a.dispatch.command, a.dispatch.capable);
    } else {
      var n := Apply(s, a);
      StepBindsNothing(s, a);
      assert s.t.devices.Keys == s.t.assignments.Keys by { FenceWires(s); }
      StepIsHistory(s, a);
      forall c | c in n.work.dispatches && n.work.dispatches[c].stage.Bound? ensures BoundRow(n, n.work.dispatches[c]) {
        HistoryKeepsBoundRow(s, n, n.work.dispatches[c]);
      }
    }
  }

  lemma FenceWires(s: Hub)
    requires FenceInv(s)
    ensures s.t.devices.Keys == s.t.assignments.Keys
  {
  }

  lemma BindKeepsBoundRows(s: Hub, c: Id, capable: bool)
    requires FenceInv(s) && BoundRows(s)
    ensures BoundRows(Apply(s, Dispatching(Bind(c, capable))))
  {
    hide FenceInv, BoundRows, DoBind;
    if s.net.closing.None? { BindIsExact(s, c, capable); }
  }

  // ---------------------------------------------------------------- frames

  lemma SendDecides(s: Hub, c: Id, delivered: bool)
    requires FenceInv(s) && BoundRows(s) && FramesDecided(s)
    ensures FramesDecided(DoSend(s, c, delivered))
  {
    hide Moved;
    if c in s.work.dispatches && s.work.dispatches[c].stage.Bound? { assert BoundRow(s, s.work.dispatches[c]); }
  }

  lemma LogGrows(s: Hub, n: Hub)
    requires HistoryStep(s, n)
    ensures s.t.log <= n.t.log
  {
  }

  lemma StepKeepsDecided(s: Hub, a: Action)
    requires FenceInv(s) && BoundRows(s) && FramesDecided(s)
    ensures FramesDecided(Apply(s, a))
  {
    hide FenceInv, BoundRows, HistoryStep, DoSend, DoLink, DoWorld, DoResult, DoScope, DoHandshake, FrameExact, Moved;
    if a.Dispatching? && a.dispatch.Send? {
      SendDecides(s, a.dispatch.command, a.dispatch.delivered);
    } else {
      OnlySendWrites(s, a);
      FenceWires(s);
      StepIsHistory(s, a);
      LogGrows(s, Apply(s, a));
      FramesStayDecided(s, Apply(s, a));
    }
  }

  lemma FramesStayDecided(s: Hub, n: Hub)
    requires FramesDecided(s) && n.trace.frames == s.trace.frames && s.t.log <= n.t.log
    ensures FramesDecided(n)
  {
    hide Moved, FrameExact;
    forall i | 0 <= i < |n.trace.frames| ensures FrameDecided(n.t.log, n.trace.frames[i]) {
      var f := s.trace.frames[i];
      assert FrameDecided(s.t.log, f);
      if f.v2 { MovedGrows(s.t.log, n.t.log, f.device, f.since, f.until); }
    }
  }

  lemma InitDecided(env: Env, generation: int)
    ensures BoundRows(Init(env, generation)) && FramesDecided(Init(env, generation))
  {
  }

  /** In every run, a frame written to an open v2 socket names the stored ACTIVE scope, in the epoch it
      was bound for, if and only if no audited move of its device lies between its bind and its write. */
  lemma {:induction false} ExactUnlessMoved(env: Env, generation: int, actions: seq<Action>)
    ensures BoundRows(Run(Init(env, generation), actions)) && FramesDecided(Run(Init(env, generation), actions))
  {
    hide FenceInv, BoundRows, FramesDecided, Apply;
    if actions == [] {
      InitDecided(env, generation);
    } else {
      var before := actions[..|actions| - 1];
      var s := Run(Init(env, generation), before);
      ExactUnlessMoved(env, generation, before);
      InitKeepsFence(env, generation);
      RunKeepsFence(Init(env, generation), before);
      StepKeepsBoundRows(s, actions[|actions| - 1]);
      StepKeepsDecided(s, actions[|actions| - 1]);
    }
  }

  /** So a device is moved between bind and write only over a command that was ended early, and then the
      frame is stale. */
  lemma OnlyEarlyEndsLetMovesThrough(env: Env, generation: int, actions: seq<Action>, i: nat)
    requires i < |Run(Init(env, generation), actions).trace.frames|
    ensures var s := Run(Init(env, generation), actions);
            var f := s.trace.frames[i];
            f.v2 && Moved(s.t.log, f.device, f.since, f.until) ==> !FrameExact(f) && f.command in s.trace.early
  {
    hide Run, BoundRows, FrameExact, Moved;
    ExactUnlessMoved(env, generation, actions);
    EverySocketFence(env, generation, actions);
    assert FrameDecided(Run(Init(env, generation), actions).t.log, Run(Init(env, generation), actions).trace.frames[i]);
  }
}
