/** Device records over whole runs: what a hello does to them, and that a v2 device that says the same hello
    again is refused only when it has been disabled. */
module Enrolment {
  import opened StageTypes
  import opened AssignmentCommits
  import opened HubMachine
  import opened CommandFence
  import opened FenceTheorems
  import opened AssignmentHistory
  import opened MoveGuards

  // ---------------------------------------------------------------- one step

  /** A record stays, is disabled, takes the kind and profile of a v1 hello that names its Project, or is migrated
      to v2; a new one comes from a hello, with the row that goes with it. */
  ghost predicate RecordGoesOn(s: Hub, a: Action, n: Hub, d: Id) {
    if d in s.t.devices then
      && d in n.t.devices
      && n.t.devices[d] ==
         if a == World(Disable(d)) then s.t.devices[d].(enabled := false)
         else if a.Link? && a.link.HelloV1? && a.link.device == d != NO_ID && a.link.project == s.t.devices[d].project
         then Device(V1, a.link.profile, a.link.kind, a.link.project, s.t.devices[d].enabled)
         else if a.Handshaking? && a.handshake.Migrate? && a.handshake.device == d && n.t.log != s.t.log
         then s.t.devices[d].(protocol := V2, project := NO_ID)
         else s.t.devices[d]
    else if a.Link? && a.link.HelloV1? && a.link.device == d != NO_ID then
      && d in n.t.devices && n.t.devices[d] == Device(V1, a.link.profile, a.link.kind, a.link.project, true)
      && d in n.t.assignments && n.t.assignments[d] == Assignment(Legacy, a.link.project, NO_ID, 1)
    else if a.Link? && a.link.HelloV2? && a.link.device == d != NO_ID then
      && d in n.t.devices && n.t.devices[d] == Device(V2, a.link.profile, a.link.kind, NO_ID, true)
      && d in n.t.assignments && n.t.assignments[d] == Assignment(Unassigned, NO_ID, NO_ID, 1)
    else d !in n.t.devices
  }

  lemma LinkGoesOn(s: Hub, a: LinkStep, d: Id)
    ensures RecordGoesOn(s, Link(a), DoLink(s, a), d)
  {
    hide ReconnectLegal;
  }

  lemma HandshakeGoesOn(s: Hub, a: HandshakeStep, d: Id)
    ensures RecordGoesOn(s, Handshaking(a), DoHandshake(s, a), d)
  {
    hide Preflight, AckMatches, Live, DropPending, ReservationCurrent, ExpireStale, DoFence, CommitTables;
    if a.Fence? { FenceLeavesTables(s, a.id, a.plan); }
    if a.Commit? && ReadyToCommit(s, a.id) && CommitTables(s.t, a.id, s.work.handshakes[a.id]).Some? {
      TransactionLeavesRecords(s.t, a.id, s.work.handshakes[a.id]);
    }
  }

  lemma TransactionLeavesRecords(t: Tables, id: Id, h: Handshake)
    requires AckMatches(id, h) && CommitTables(t, id, h).Some?
    ensures CommitTables(t, id, h).value.devices == t.devices
  {
  }

  lemma FenceLeavesTables(s: Hub, id: Id, plan: Plan)
    ensures DoFence(s, id, plan).t == s.t
  {
    hide Live, ReservationCurrent, NoPending, Excluded;
  }

  lemma DispatchLeavesRecords(s: Hub, a: DispatchStep)
    ensures DoDispatch(s, a).t.devices == s.t.devices
  {
    hide FrameOf, CanBind;
    if !a.Bind? && !a.Send? { CountersMove(s, a); }
  }

  lemma ScopeLeavesRecords(s: Hub, a: ScopeStep)
    ensures DoScope(s, a).t.devices == s.t.devices
  {
    hide ScopeAuthoritative, ScopeReported;
  }

  lemma RecordsGoOn(s: Hub, a: Action, d: Id)
    ensures RecordGoesOn(s, a, Apply(s, a), d)
  {
    hide DoLink, DoDispatch, DoResult, DoScope, DoHandshake;
    if s.net.closing.Some? && NeedsLock(a) { return; }
    match a {
      case World(x) =>
      case Link(x) => LinkGoesOn(s, x, d);
      case Dispatching(x) => DispatchLeavesRecords(s, x);
      case Result(x) => ResultLeavesNet(s, x);
      case Scoping(x) => ScopeLeavesRecords(s, x);
      case Handshaking(x) => HandshakeGoesOn(s, x, d);
    }
  }

  // ---------------------------------------------------------------- the rows of v2 devices

  /** The row of a v2 device is one that a hello accepts. */
  ghost predicate Enlisted(s: Hub, d: Id)
    requires d in s.t.devices
  {
    && d in s.t.assignments && s.t.devices[d].project == NO_ID
    && var a := s.t.assignments[d];
    && a.state != Legacy && StateShape(a) && (a.state == Active ==> ActiveProfile(s.t.devices[d]))
    && (a.state == Active && s.t.devices[d].profile == StageLaserProfile ==>
          LaserAudits(s.t.log, d, a.project, a.snapshot, a.epoch) == 1)
  }

  ghost predicate AllEnlisted(s: Hub) {
    forall d | d in s.t.devices && s.t.devices[d].protocol == V2 :: Enlisted(s, d)
  }

  ghost predicate NoLaserAhead(s: Hub) {
    && (forall d, p, m, e | d in s.t.assignments && s.t.assignments[d].epoch < e ::
        LaserAudits(s.t.log, d, p, m, e) == 0)
    && (forall d, p, m, e | d !in s.t.assignments :: LaserAudits(s.t.log, d, p, m, e) == 0)
  }

  lemma AuditedStaysAhead(s: Hub, n: Hub, device: Id)
    requires NoLaserAhead(s) && Audited(s, n, device)
    ensures NoLaserAhead(n)
  {
    assert n.t.log[..|n.t.log| - 1] == s.t.log;
    var row := n.t.log[|s.t.log|];
    forall d, p, m, e | if d in n.t.assignments then n.t.assignments[d].epoch < e else true
      ensures LaserAudits(n.t.log, d, p, m, e) == 0
    {
      assert LaserAudits(s.t.log, d, p, m, e) == 0;
      if row.LaserAudit? && row.device == d { assert row.toEpoch == n.t.assignments[d].epoch; }
    }
  }

  lemma StepStaysAhead(s: Hub, n: Hub)
    requires NoLaserAhead(s) && HistoryStep(s, n)
    ensures NoLaserAhead(n)
  {
    if d :| Audited(s, n, d) { AuditedStaysAhead(s, n, d); }
  }

  /** The new row of the device whose row moved. */
  lemma MovedIsEnlisted(s: Hub, n: Hub, d: Id)
    requires NoLaserAhead(s) && Audited(s, n, d) && GuardedMove(s.t, d, s.t.assignments[d], n.t.assignments[d])
    requires d in n.t.devices && n.t.devices[d].protocol == V2 && n.t.devices[d].project == NO_ID
    requires n.t.devices[d].profile == s.t.devices[d].profile && n.t.devices[d].kind == s.t.devices[d].kind
    ensures Enlisted(n, d)
  {
    hide HasPendingCommand;
    var a, b, row := s.t.assignments[d], n.t.assignments[d], n.t.log[|s.t.log|];
    assert n.t.log[..|n.t.log| - 1] == s.t.log;
    if b.state == Active && n.t.devices[d].profile == StageLaserProfile {
      assert row.LaserAudit? && row.toEpoch == b.epoch;
      assert LaserAudits(s.t.log, d, b.project, b.snapshot, b.epoch) == 0;
    }
  }

  /** A row that stays, of a record that stays v2. */
  lemma SameRowEnlisted(s: Hub, n: Hub, d: Id)
    requires d in s.t.devices && Enlisted(s, d) && HistoryStep(s, n)
    requires d in n.t.devices && n.t.devices[d].(enabled := s.t.devices[d].enabled) == s.t.devices[d]
    requires d in n.t.assignments && n.t.assignments[d] == s.t.assignments[d]
    ensures Enlisted(n, d)
  {
    if e :| Audited(s, n, e) {
      assert n.t.log[..|n.t.log| - 1] == s.t.log;
      assert e != d;
    }
  }

  lemma NewIsEnlisted(s: Hub, a: Action, n: Hub, d: Id)
    requires d !in s.t.devices && RecordGoesOn(s, a, n, d) && d in n.t.devices && n.t.devices[d].protocol == V2
    ensures Enlisted(n, d)
  {
  }

  ghost predicate Migrated(s: Hub, a: Action, n: Hub, d: Id) {
    a.Handshaking? && a.handshake.Migrate? && a.handshake.device == d && n.t.log != s.t.log
  }

  lemma MigrationMovesRow(s: Hub, a: Action, d: Id)
    requires Migrated(s, a, Apply(s, a), d)
    ensures d in s.t.assignments && d in Apply(s, a).t.assignments
    ensures Apply(s, a).t.assignments[d] != s.t.assignments[d]
  {
    hide HasPendingCommand;
  }

  lemma StaysEnlisted(s: Hub, a: Action, n: Hub, d: Id)
    requires AllEnlisted(s) && HistoryStep(s, n) && RecordGoesOn(s, a, n, d) && MovesGuarded(s.t, n.t) &&
             NoLaserAhead(s)
    requires s.t.devices.Keys == s.t.assignments.Keys && d in n.t.devices && n.t.devices[d].protocol == V2
    requires Migrated(s, a, n, d) ==> d in n.t.assignments && n.t.assignments[d] != s.t.assignments[d]
    ensures Enlisted(n, d)
  {
    hide GuardedMove, ReplayRow, Enlisted;
    if d !in s.t.devices {
      NewIsEnlisted(s, a, n, d);
    } else if n.t.assignments[d] != s.t.assignments[d] {
      var e :| Audited(s, n, e);
      if s.t.devices[d].protocol == V2 { EnlistedHasNoProject(s, d); }
      MovedIsEnlisted(s, n, d);
    } else {
      SameRowEnlisted(s, n, d);
    }
  }

  lemma EnlistedHasNoProject(s: Hub, d: Id)
    requires d in s.t.devices && Enlisted(s, d)
    ensures s.t.devices[d].project == NO_ID
  {
  }

  lemma InitEnlisted(env: Env, generation: int)
    ensures AllEnlisted(Init(env, generation)) && NoLaserAhead(Init(env, generation))
  {
  }

  lemma {:induction false} RunKeepsEnlisted(env: Env, generation: int, actions: seq<Action>)
    ensures AllEnlisted(Run(Init(env, generation), actions)) && NoLaserAhead(Run(Init(env, generation), actions))
  {
    hide Apply, ScopesExact, BoundToScope, HistoryStep, Enlisted, NoLaserAhead, MovesGuarded, RecordGoesOn;
    var i := Init(env, generation);
    if actions == [] {
      InitEnlisted(env, generation);
    } else {
      var before, a := actions[..|actions| - 1], actions[|actions| - 1];
      var s := Run(i, before);
      RunKeepsEnlisted(env, generation, before);
      InitKeepsFence(env, generation);
      RunKeepsFence(i, before);
      StepIsHistory(s, a);
      StepStaysAhead(s, Apply(s, a));
      EveryMoveIsGuarded(s, a);
      forall d | d in Apply(s, a).t.devices && Apply(s, a).t.devices[d].protocol == V2
        ensures Enlisted(Apply(s, a), d)
      {
        RecordsGoOn(s, a, d);
        if Migrated(s, a, Apply(s, a), d) { MigrationMovesRow(s, a, d); }
        StaysEnlisted(s, a, Apply(s, a), d);
      }
    }
  }

  /** In every reachable state, a v2 hello is accepted from a new device, and from a known v2 one exactly when it
      repeats its kind and profile and the device has not been disabled: the further checks of the stored row,
      of the profile of an ACTIVE one, and of the one audit row of a StageLaser scope never fail. */
  lemma ReconnectsUnlessDisabled(env: Env, generation: int, actions: seq<Action>, device: Id, profile: Profile,
                                 kind: Kind)
    requires device != NO_ID
    ensures var t := Run(Init(env, generation), actions).t;
            RegisterV2(t, device, profile, kind).Some? <==>
            (device in t.devices ==>
               t.devices[device].protocol == V2 && t.devices[device].enabled && t.devices[device].profile == profile &&
               t.devices[device].kind == kind)
  {
    hide Run, StateShape, ActiveProfile;
    RunKeepsEnlisted(env, generation, actions);
    var s := Run(Init(env, generation), actions);
    if device in s.t.devices && s.t.devices[device].protocol == V2 { assert Enlisted(s, device); }
  }
}
