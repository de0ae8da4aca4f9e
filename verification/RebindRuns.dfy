/** Rebind calls in the whole Hub: whatever runs beside them, wherever they fail and however often they
    are retried, the lighting node is only moved forward. */
module RebindRuns {
  import opened StageTypes
  import opened AssignmentCommits
  import opened HubMachine
  import opened CommandFence
  import opened FenceTheorems
  import opened AssignmentHistory
  import opened AuditReplay
  import opened LightingRebind

  /** The handshake that a rebind call asks for when it has read this row. */
  predicate Planned(a: Assignment, p: Plan, project: Id, snapshot: Id) {
    && p.epoch == a.epoch
    && match Next(a, project, snapshot)
       case Unassign => p.kind == Blackout && p.fromProject == project && p.toProject == NO_ID
       case Reassign => p.kind == Blackout && p.fromProject == NO_ID && p.toProject == project
       case Activate => p.kind == Activation && p.toProject == project && p.toSnapshot == snapshot
       case _ => false
  }

  /** The action starts a handshake with this plan. */
  predicate Starts(a: Action, id: Id, p: Plan) {
    && a.Handshaking?
    && ((a.handshake.Reserve? && a.handshake.id == id && a.handshake.plan == p) ||
        (a.handshake.Fence? && a.handshake.id == id && a.handshake.plan == p))
  }

  predicate Migrates(a: Action, device: Id) {
    a.Handshaking? && a.handshake.Migrate? && a.handshake.device == device
  }

  function RowAt(s: Hub, actions: seq<Action>, j: nat, device: Id): Option<Assignment>
    requires j <= |actions|
  {
    AssignmentOf(Run(s, actions[..j]).t, device)
  }

  /** The only handshakes started for this device are those of rebind calls, each planned on a row that
      was read at some earlier moment; and the device is not migrated. */
  ghost predicate OnlyRebinds(s: Hub, actions: seq<Action>, device: Id, project: Id, snapshot: Id) {
    forall i | 0 <= i < |actions| ::
      && !Migrates(actions[i], device)
      && forall id, p | Starts(actions[i], id, p) && p.device == device ::
           exists j: nat :: j <= i && RowAt(s, actions, j, device).Some? &&
             Planned(RowAt(s, actions, j, device).value, p, project, snapshot)
  }

  // ---------------------------------------------------------------- what may move a row

  /** The rows of enrolled devices stay. */
  ghost predicate RowsStay(s: Hub, n: Hub) {
    forall d | d in s.t.assignments :: d in n.t.assignments && n.t.assignments[d] == s.t.assignments[d]
  }

  lemma LinkMovesNothing(s: Hub, a: LinkStep)
    requires FenceInv(s)
    ensures RowsStay(s, DoLink(s, a))
  {
    hide DoHello;
    match a {
      case HelloV1(device, project, profile, kind) => HelloV1Quiet(s, device, project, profile, kind);
      case HelloV2(device, profile, kind) => HelloV2Quiet(s, device, profile, kind);
      case _ =>
    }
  }

  lemma HandshakeMovesNothing(s: Hub, a: HandshakeStep)
    requires !a.Commit? && !a.Migrate?
    ensures RowsStay(s, DoHandshake(s, a))
  {
    hide DoReserve, DoCancel, DoFence, DoRecheck, DoDeliver, DoVerify, DoCommit, DoFinish, DoMigrate, DoCloseCommitted;
    if a.Reserve? || a.CancelReservation? {
      ReservationMovesNoRow(s, a);
    } else if a.Fence? {
      FenceMovesNoRow(s, a.id, a.plan);
    } else {
      AnswerMovesNoRow(s, a);
    }
  }

  lemma OthersMoveNothing(s: Hub, a: Action)
    requires FenceInv(s)
    requires a.Handshaking? ==> !a.handshake.Commit? && !a.handshake.Migrate?
    ensures RowsStay(s, Apply(s, a))
  {
    hide FenceInv, NeedsLock, DoLink, DoHandshake, DoDispatch, DoWorld, DoResult, DoScope;
    match a {
      case Link(x) => LinkMovesNothing(s, x);
      case Handshaking(x) => HandshakeMovesNothing(s, x);
      case _ => InnerLeavesMoves(s, a);
    }
  }

  // ---------------------------------------------------------------- where handshakes come from

  ghost predicate Started(s: Hub, n: Hub, a: Action) {
    forall id | id in n.work.handshakes ::
      (id in s.work.handshakes && s.work.handshakes[id].plan == n.work.handshakes[id].plan) ||
      Starts(a, id, n.work.handshakes[id].plan)
  }

  lemma ReserveIsStarted(s: Hub, id: Id, plan: Plan, generation: int)
    ensures Started(s, DoReserve(s, id, plan, generation), Handshaking(Reserve(id, plan, generation)))
  {
    hide ReserveIntent, DoFence;
  }

  lemma FenceIsStarted(s: Hub, id: Id, plan: Plan)
    ensures Started(s, DoFence(s, id, plan), Handshaking(Fence(id, plan)))
  {
    hide DoReserve, Live, NoPending, Excluded;
  }

  lemma OthersStartNothing(s: Hub, a: HandshakeStep)
    requires !a.Reserve? && !a.Fence?
    ensures Started(s, DoHandshake(s, a), Handshaking(a))
  {
    hide DoReserve, DoFence, CommitTables, Preflight, AckMatches, CancelIntent, MigrateLegacy, Live, DropPending;
  }

  lemma LinkStartsNothing(s: Hub, a: LinkStep)
    ensures Started(s, DoLink(s, a), Link(a))
  {
    hide UpsertV1, RegisterV2, Starts;
  }

  lemma HandshakeStarts(s: Hub, a: HandshakeStep)
    ensures Started(s, DoHandshake(s, a), Handshaking(a))
  {
    hide Started;
    match a {
      case Reserve(id, plan, generation) => ReserveIsStarted(s, id, plan, generation);
      case Fence(id, plan) => FenceIsStarted(s, id, plan);
      case _ => OthersStartNothing(s, a);
    }
  }

  lemma StepStarts(s: Hub, a: Action)
    ensures Started(s, Apply(s, a), a)
  {
    hide Starts, NeedsLock, DoLink, DoHandshake, DoDispatch, DoWorld, DoResult, DoScope;
    match a {
      case Link(x) => LinkStartsNothing(s, x);
      case Handshaking(x) => HandshakeStarts(s, x);
      case _ => InnerLeavesMoves(s, a);
    }
  }

  // ---------------------------------------------------------------- one step

  /** A plan was made on a row that the stored one has followed. */
  ghost predicate Followed(row: Assignment, p: Plan, project: Id, snapshot: Id) {
    exists r :: Planned(r, p, project, snapshot) && Forward(r, row)
  }

  /** So do all plans that this action starts for the device. */
  ghost predicate AsksFollowed(s: Hub, a: Action, device: Id, project: Id, snapshot: Id) {
    device in s.t.assignments &&
    forall id, p | Starts(a, id, p) && p.device == device :: Followed(s.t.assignments[device], p, project, snapshot)
  }

  ghost predicate PlansFollowed(s: Hub, device: Id, project: Id, snapshot: Id) {
    && device in s.t.assignments
    && forall id | id in s.work.handshakes && s.work.handshakes[id].plan.device == device ::
         Followed(s.t.assignments[device], s.work.handshakes[id].plan, project, snapshot)
  }

  lemma TransferAdvances(s: Hub, id: Id, device: Id, project: Id, snapshot: Id)
    requires ReadyToCommit(s, id) && s.work.handshakes[id].plan.device == device && device in s.t.assignments
    requires s.work.handshakes[id].plan.kind == Blackout
    requires Followed(s.t.assignments[device], s.work.handshakes[id].plan, project, snapshot)
    requires project != NO_ID && snapshot != NO_ID
    ensures var n := DoCommit(s, id);
            device in n.t.assignments && Advances(s.t.assignments[device], n.t.assignments[device], project, snapshot)
  {
    hide StateShape, HasPendingCommand, ReservationMatches, LightingAudited;
    var r :| Planned(r, s.work.handshakes[id].plan, project, snapshot) && Forward(r, s.t.assignments[device]);
  }

  lemma ActivationAdvances(s: Hub, id: Id, device: Id, project: Id, snapshot: Id)
    requires ReadyToCommit(s, id) && s.work.handshakes[id].plan.device == device && device in s.t.assignments
    requires s.work.handshakes[id].plan.kind == Activation
    requires Followed(s.t.assignments[device], s.work.handshakes[id].plan, project, snapshot)
    requires project != NO_ID && snapshot != NO_ID
    ensures var n := DoCommit(s, id);
            device in n.t.assignments && Advances(s.t.assignments[device], n.t.assignments[device], project, snapshot)
  {
    hide HasPendingCommand, LightingConfig;
    var r :| Planned(r, s.work.handshakes[id].plan, project, snapshot) && Forward(r, s.t.assignments[device]);
  }

  lemma CommitAdvances(s: Hub, id: Id, device: Id, project: Id, snapshot: Id)
    requires PlansFollowed(s, device, project, snapshot) && project != NO_ID && snapshot != NO_ID &&
             NO_ID !in s.work.handshakes
    ensures var n := DoCommit(s, id);
            device in n.t.assignments && Advances(s.t.assignments[device], n.t.assignments[device], project, snapshot)
  {
    hide Advances, CommitTables, AckMatches, Followed;
    if ReadyToCommit(s, id) {
      var h := s.work.handshakes[id];
      if h.plan.device != device {
        if CommitTables(s.t, id, h).Some? { CommitMovesOneRow(s.t, id, h); }
        StaysAdvance(s.t.assignments[device], project, snapshot);
      } else {
        assert Followed(s.t.assignments[device], h.plan, project, snapshot);
        FollowedKind(s.t.assignments[device], h.plan, project, snapshot);
        if h.plan.kind == Blackout {
          TransferAdvances(s, id, device, project, snapshot);
        } else {
          ActivationAdvances(s, id, device, project, snapshot);
        }
      }
    } else {
      StaysAdvance(s.t.assignments[device], project, snapshot);
    }
  }

  lemma FollowedKind(row: Assignment, p: Plan, project: Id, snapshot: Id)
    requires Followed(row, p, project, snapshot)
    ensures p.kind == Blackout || p.kind == Activation
  {
  }

  lemma StaysAdvance(a: Assignment, project: Id, snapshot: Id)
    ensures Advances(a, a, project, snapshot)
  {
  }

  lemma MigrateElsewhere(s: Hub, a: HandshakeStep, device: Id)
    requires a.Migrate? && a.device != device && device in s.t.assignments
    ensures var n := DoHandshake(s, a); device in n.t.assignments && n.t.assignments[device] == s.t.assignments[device]
  {
  }

  lemma StepAdvances(s: Hub, a: Action, device: Id, project: Id, snapshot: Id)
    requires FenceInv(s) && PlansFollowed(s, device, project, snapshot) && project != NO_ID && snapshot != NO_ID
    requires !Migrates(a, device)
    ensures var n := Apply(s, a);
            device in n.t.assignments && Advances(s.t.assignments[device], n.t.assignments[device], project, snapshot)
  {
    hide Advances, PlansFollowed, NeedsLock, DoCommit, DoMigrate, DoWorld, DoLink, DoDispatch, DoResult, DoScope;
    assert device in s.t.assignments && NO_ID !in s.work.handshakes by { KnownDevice(s, device, project, snapshot); }
    StaysAdvance(s.t.assignments[device], project, snapshot);
    if a.Handshaking? && a.handshake.Commit? {
      CommitAdvances(s, a.handshake.id, device, project, snapshot);
    } else if a.Handshaking? && a.handshake.Migrate? {
      MigrateElsewhere(s, a.handshake, device);
    } else {
      OthersMoveNothing(s, a);
    }
  }

  lemma KnownDevice(s: Hub, device: Id, project: Id, snapshot: Id)
    requires FenceInv(s) && PlansFollowed(s, device, project, snapshot)
    ensures device in s.t.assignments && NO_ID !in s.work.handshakes
  {
  }

  lemma ForwardTwice(r: Assignment, a: Assignment, b: Assignment)
    requires Forward(r, a) && Forward(a, b)
    ensures Forward(r, b)
  {
  }

  lemma StepFollows(s: Hub, a: Action, device: Id, project: Id, snapshot: Id)
    requires FenceInv(s) && PlansFollowed(s, device, project, snapshot)
    requires AsksFollowed(s, a, device, project, snapshot)
    ensures PlansFollowed(Apply(s, a), device, project, snapshot)
  {
    hide FenceInv, Apply, Planned, Starts, Forward, HistoryStep;
    var n := Apply(s, a);
    StepStarts(s, a);
    assert s.t.devices.Keys == s.t.assignments.Keys by { FenceKeys(s); }
    StepIsHistory(s, a);
    AuditReplay.StepForward(s, n);
    forall id | id in n.work.handshakes && n.work.handshakes[id].plan.device == device
      ensures Followed(n.t.assignments[device], n.work.handshakes[id].plan, project, snapshot)
    {
      var p := n.work.handshakes[id].plan;
      assert Followed(s.t.assignments[device], p, project, snapshot);
      var r :| Planned(r, p, project, snapshot) && Forward(r, s.t.assignments[device]);
      ForwardTwice(r, s.t.assignments[device], n.t.assignments[device]);
    }
  }

  lemma FenceKeys(s: Hub)
    requires FenceInv(s)
    ensures s.t.devices.Keys == s.t.assignments.Keys
  {
  }

  // ---------------------------------------------------------------- runs

  /** A row that was read earlier in the run has been followed by the stored one. */
  lemma ReadIsFollowed(env: Env, generation: int, past: seq<Action>, future: seq<Action>, j: nat, device: Id)
    requires j <= |future| && RowAt(Run(Init(env, generation), past), future, j, device).Some?
    ensures var s := Run(Init(env, generation), past);
            var n := Run(s, future);
            device in n.t.assignments && Forward(RowAt(s, future, j, device).value, n.t.assignments[device])
  {
    hide Run, Forward;
    var i := Init(env, generation);
    RunConcat(i, past, future[..j]);
    RunConcat(Run(i, past), future[..j], future[j..]);
    assert future[..j] + future[j..] == future;
    OneScopePerEpoch(env, generation, past + future[..j], future[j..]);
  }

  lemma AskedPlansFollow(env: Env, generation: int, past: seq<Action>, future: seq<Action>, device: Id, project: Id,
                         snapshot: Id)
    requires future != [] && OnlyRebinds(Run(Init(env, generation), past), future, device, project, snapshot)
    requires device in Run(Run(Init(env, generation), past), future[..|future| - 1]).t.assignments
    ensures AsksFollowed(Run(Run(Init(env, generation), past), future[..|future| - 1]), future[|future| - 1], device,
                         project, snapshot)
  {
    hide Run, Planned, Forward, Starts, Migrates;
    var s0 := Run(Init(env, generation), past);
    var before, a := future[..|future| - 1], future[|future| - 1];
    forall id, p | Starts(a, id, p) && p.device == device
      ensures Followed(Run(s0, before).t.assignments[device], p, project, snapshot)
    {
      var j: nat :| j <= |future| - 1 && RowAt(s0, future, j, device).Some? &&
        Planned(RowAt(s0, future, j, device).value, p, project, snapshot);
      assert before[..j] == future[..j];
      ReadIsFollowed(env, generation, past, before, j, device);
    }
  }

  lemma OnlyRebindsBefore(s: Hub, actions: seq<Action>, device: Id, project: Id, snapshot: Id)
    requires actions != [] && OnlyRebinds(s, actions, device, project, snapshot)
    ensures OnlyRebinds(s, actions[..|actions| - 1], device, project, snapshot)
  {
    hide Run, Planned, Starts, Migrates;
    var before := actions[..|actions| - 1];
    forall i, id, p | 0 <= i < |before| && Starts(before[i], id, p) && p.device == device
      ensures exists j: nat :: j <= i && RowAt(s, before, j, device).Some? &&
                Planned(RowAt(s, before, j, device).value, p, project, snapshot)
    {
      assert before[i] == actions[i];
      var j: nat :| j <= i && RowAt(s, actions, j, device).Some? &&
        Planned(RowAt(s, actions, j, device).value, p, project, snapshot);
      assert before[..j] == actions[..j];
      assert RowAt(s, before, j, device) == RowAt(s, actions, j, device);
    }
  }

  ghost predicate NoHandshakes(s: Hub, device: Id) {
    device in s.t.assignments && forall id | id in s.work.handshakes :: s.work.handshakes[id].plan.device != device
  }

  lemma NothingToFollow(s: Hub, device: Id, project: Id, snapshot: Id)
    requires NoHandshakes(s, device)
    ensures PlansFollowed(s, device, project, snapshot)
    ensures Advances(s.t.assignments[device], s.t.assignments[device], project, snapshot)
  {
  }

  /** From any reachable state, through any further run of the whole Hub in which no other operator
      handles this device, however many rebind calls are made and wherever each of them fails: the row
      only moves forward along the path. */
  lemma {:induction false} RebindsAdvance(env: Env, generation: int, past: seq<Action>, future: seq<Action>,
                                          device: Id, project: Id, snapshot: Id)
    requires project != NO_ID && snapshot != NO_ID
    requires NoHandshakes(Run(Init(env, generation), past), device)
    requires OnlyRebinds(Run(Init(env, generation), past), future, device, project, snapshot)
    ensures var s := Run(Init(env, generation), past);
            var n := Run(s, future);
            && PlansFollowed(n, device, project, snapshot)
            && Advances(s.t.assignments[device], n.t.assignments[device], project, snapshot)
  {
    hide Apply, FenceInv, PlansFollowed, Followed, Advances, OnlyRebinds, Starts, Migrates;
    var s := Run(Init(env, generation), past);
    if future == [] {
      NothingToFollow(s, device, project, snapshot);
    } else {
      var before := future[..|future| - 1];
      var a := future[|future| - 1];
      var m := Run(s, before);
      OnlyRebindsBefore(s, future, device, project, snapshot);
      RebindsAdvance(env, generation, past, before, device, project, snapshot);
      InitKeepsFence(env, generation);
      RunKeepsFence(Init(env, generation), past);
      RunKeepsFence(s, before);
      assert device in m.t.assignments by { KnownDevice(m, device, project, snapshot); }
      AskedPlansFollow(env, generation, past, future, device, project, snapshot);
      assert !Migrates(a, device) by { NotMigrated(s, future, device, project, snapshot); }
      StepAdvances(m, a, device, project, snapshot);
      StepFollows(m, a, device, project, snapshot);
      AdvancesAgain(s.t.assignments[device], m.t.assignments[device], Run(s, future).t.assignments[device], project,
                    snapshot);
    }
  }

  lemma NotMigrated(s: Hub, actions: seq<Action>, device: Id, project: Id, snapshot: Id)
    requires actions != [] && OnlyRebinds(s, actions, device, project, snapshot)
    ensures !Migrates(actions[|actions| - 1], device)
  {
    hide Run;
  }

  /** So retries never move back, the epoch rises by at most two over all of them, and a node that has
      reached the target stays there. */
  lemma RetriesNeverMoveBack(env: Env, generation: int, past: seq<Action>, future: seq<Action>, device: Id, project: Id,
                             snapshot: Id)
    requires project != NO_ID && snapshot != NO_ID
    requires NoHandshakes(Run(Init(env, generation), past), device)
    requires OnlyRebinds(Run(Init(env, generation), past), future, device, project, snapshot)
    ensures var s := Run(Init(env, generation), past);
            var a, b := s.t.assignments[device], AssignmentOf(Run(s, future).t, device);
            && b.Some?
            && Progress(a, project, snapshot) <= Progress(b.value, project, snapshot)
            && a.epoch <= b.value.epoch <= a.epoch + 2
            && (Progress(a, project, snapshot) == 3 ==> b.value == a)
  {
    hide Run, OnlyRebinds, Followed;
    RebindsAdvance(env, generation, past, future, device, project, snapshot);
    var s := Run(Init(env, generation), past);
    AdvanceIsBounded(s.t.assignments[device], Run(s, future).t.assignments[device], project, snapshot);
  }

  // ---------------------------------------------------------------- success

  /** Every activation of the device that has been committed has taken it to the target. */
  ghost predicate DoneReached(s: Hub, device: Id, project: Id, snapshot: Id) {
    device in s.t.assignments &&
    forall id | id in s.work.handshakes && s.work.handshakes[id].plan.device == device &&
                s.work.handshakes[id].plan.kind == Activation && s.work.handshakes[id].phase == Done ::
      Progress(s.t.assignments[device], project, snapshot) == 3
  }

  /** Only a commit ends a handshake as Done. */
  ghost predicate DoneByCommit(s: Hub, n: Hub, a: Action) {
    forall id | id in n.work.handshakes && n.work.handshakes[id].phase == Done ::
      || (id in s.work.handshakes && s.work.handshakes[id] == n.work.handshakes[id])
      || (a == Handshaking(Commit(id)) && ReadyToCommit(s, id) &&
          n.work.handshakes[id].plan == s.work.handshakes[id].plan &&
              CommitTables(s.t, id, s.work.handshakes[id]).Some?)
  }

  lemma CommitMakesDone(s: Hub, id: Id)
    ensures DoneByCommit(s, DoCommit(s, id), Handshaking(Commit(id)))
  {
    hide CommitTables, AckMatches, Live;
  }

  lemma RequestsMakeNothingDone(s: Hub, a: HandshakeStep)
    requires !a.Commit?
    ensures DoneByCommit(s, DoHandshake(s, a), Handshaking(a))
  {
    hide DoCommit, Preflight, AckMatches, Live, ReserveIntent, CancelIntent, MigrateLegacy, NoPending, Excluded,
         DropPending;
    hide ReadyToCommit, CommitTables;
  }

  lemma LinkMakesNothingDone(s: Hub, a: LinkStep)
    ensures DoneByCommit(s, DoLink(s, a), Link(a))
  {
    hide UpsertV1, RegisterV2, ReadyToCommit, CommitTables;
  }

  lemma StepMakesDone(s: Hub, a: Action)
    ensures DoneByCommit(s, Apply(s, a), a)
  {
    hide NeedsLock, DoLink, DoHandshake, DoDispatch, DoWorld, DoResult, DoScope, ReadyToCommit, CommitTables;
    match a {
      case Link(x) => LinkMakesNothingDone(s, x);
      case Handshaking(x) => HandshakeMakesDone(s, x);
      case _ => InnerLeavesMoves(s, a);
    }
  }

  lemma HandshakeMakesDone(s: Hub, a: HandshakeStep)
    ensures DoneByCommit(s, DoHandshake(s, a), Handshaking(a))
  {
    hide DoneByCommit, DoCommit, DoReserve, DoCancel, DoFence, DoRecheck, DoDeliver, DoVerify, DoFinish, DoMigrate;
    if a.Commit? { CommitMakesDone(s, a.id); } else { RequestsMakeNothingDone(s, a); }
  }

  lemma ActivationReaches(s: Hub, id: Id, device: Id, project: Id, snapshot: Id)
    requires ReadyToCommit(s, id) && s.work.handshakes[id].plan.device == device && device in s.t.assignments
    requires s.work.handshakes[id].plan.kind == Activation && CommitTables(s.t, id, s.work.handshakes[id]).Some?
    requires Followed(s.t.assignments[device], s.work.handshakes[id].plan, project, snapshot)
    requires project != NO_ID && snapshot != NO_ID
    ensures var n := DoCommit(s, id);
            device in n.t.assignments && Progress(n.t.assignments[device], project, snapshot) == 3
  {
    hide HasPendingCommand, LightingConfig;
    var r :| Planned(r, s.work.handshakes[id].plan, project, snapshot) && Forward(r, s.t.assignments[device]);
  }

  lemma StepKeepsReached(s: Hub, a: Action, device: Id, project: Id, snapshot: Id)
    requires FenceInv(s) && PlansFollowed(s, device, project, snapshot) && project != NO_ID && snapshot != NO_ID
    requires !Migrates(a, device) && DoneReached(s, device, project, snapshot)
    ensures DoneReached(Apply(s, a), device, project, snapshot)
  {
    hide FenceInv, Apply, Followed, Advances, Progress, ReadyToCommit, CommitTables, Migrates;
    var n := Apply(s, a);
    StepAdvances(s, a, device, project, snapshot);
    AdvanceIsBounded(s.t.assignments[device], n.t.assignments[device], project, snapshot);
    StepMakesDone(s, a);
    forall id | id in n.work.handshakes && n.work.handshakes[id].plan.device == device &&
                n.work.handshakes[id].plan.kind == Activation && n.work.handshakes[id].phase == Done
      ensures Progress(n.t.assignments[device], project, snapshot) == 3
    {
      if !(id in s.work.handshakes && s.work.handshakes[id] == n.work.handshakes[id]) {
        CommitReached(s, id, device, project, snapshot);
      }
    }
  }

  lemma CommitReached(s: Hub, id: Id, device: Id, project: Id, snapshot: Id)
    requires PlansFollowed(s, device, project, snapshot) && project != NO_ID && snapshot != NO_ID
    requires ReadyToCommit(s, id) && CommitTables(s.t, id, s.work.handshakes[id]).Some?
    requires s.work.handshakes[id].plan.device == device && s.work.handshakes[id].plan.kind == Activation
    requires Apply(s, Handshaking(Commit(id))) != s
    ensures var n := Apply(s, Handshaking(Commit(id)));
            device in n.t.assignments && Progress(n.t.assignments[device], project, snapshot) == 3
  {
    hide Followed, Progress, ReadyToCommit, CommitTables, DoCommit;
    assert Followed(s.t.assignments[device], s.work.handshakes[id].plan, project, snapshot) by { ReadyIsKnown(s, id); }
    ActivationReaches(s, id, device, project, snapshot);
  }

  lemma ReadyIsKnown(s: Hub, id: Id)
    requires ReadyToCommit(s, id)
    ensures id in s.work.handshakes
  {
  }

  lemma NothingDone(s: Hub, device: Id, project: Id, snapshot: Id)
    requires NoHandshakes(s, device)
    ensures DoneReached(s, device, project, snapshot)
  {
  }

  /** In such a run, when the activation of a rebind call has been committed, the row is ACTIVE on the
      target, and it stays so. */
  lemma {:induction false} CommittedActivationIsTarget(env: Env, generation: int, past: seq<Action>,
                                                       future: seq<Action>, device: Id, project: Id, snapshot: Id)
    requires project != NO_ID && snapshot != NO_ID
    requires NoHandshakes(Run(Init(env, generation), past), device)
    requires OnlyRebinds(Run(Init(env, generation), past), future, device, project, snapshot)
    ensures DoneReached(Run(Run(Init(env, generation), past), future), device, project, snapshot)
  {
    hide Apply, FenceInv, PlansFollowed, Followed, OnlyRebinds, Starts, Migrates, DoneReached;
    var s := Run(Init(env, generation), past);
    if future == [] {
      NothingDone(s, device, project, snapshot);
    } else {
      var before := future[..|future| - 1];
      OnlyRebindsBefore(s, future, device, project, snapshot);
      CommittedActivationIsTarget(env, generation, past, before, device, project, snapshot);
      RebindsAdvance(env, generation, past, before, device, project, snapshot);
      InitKeepsFence(env, generation);
      RunKeepsFence(Init(env, generation), past);
      RunKeepsFence(s, before);
      NotMigrated(s, future, device, project, snapshot);
      StepKeepsReached(Run(s, before), future[|future| - 1], device, project, snapshot);
    }
  }

  /** What the last poll of a call sees, under the lock: the scope that the device's live socket is
      enabled for. */
  function SeenScope(s: Hub, device: Id): Option<Scope> {
    if s.net.closing.None? && device in s.net.current && Live(s.net, s.net.current[device]) &&
       s.net.sockets[s.net.current[device]].v2 && s.net.sockets[s.net.current[device]].enabled
    then Some(s.net.sockets[s.net.current[device]].scope) else None
  }

  lemma SeenScopeIsStored(s: Hub, device: Id)
    requires FenceInv(s) && SeenScope(s, device).Some?
    ensures device in s.t.assignments && Exact(s.t, device, SeenScope(s, device).value)
  {
    assert Settled(s, s.net.current[device]);
  }

  /** A call answers success when it sees the target scope enabled. In any reachable state the row is then
      ACTIVE on the target, and further rebind calls leave it there. */
  lemma SuccessIsTarget(env: Env, generation: int, past: seq<Action>, future: seq<Action>, device: Id, project: Id,
                        snapshot: Id, epoch: int)
    requires project != NO_ID && snapshot != NO_ID
    requires SeenScope(Run(Init(env, generation), past), device) == Some(Scope(project, snapshot, epoch))
    requires NoHandshakes(Run(Init(env, generation), past), device)
    requires OnlyRebinds(Run(Init(env, generation), past), future, device, project, snapshot)
    ensures AssignmentOf(Run(Run(Init(env, generation), past), future).t, device) ==
            Some(Assignment(Active, project, snapshot, epoch))
  {
    hide Run, FenceInv, OnlyRebinds, SeenScope;
    InitKeepsFence(env, generation);
    RunKeepsFence(Init(env, generation), past);
    SeenScopeIsStored(Run(Init(env, generation), past), device);
    RetriesNeverMoveBack(env, generation, past, future, device, project, snapshot);
  }
}
