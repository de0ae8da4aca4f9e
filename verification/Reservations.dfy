/** Transfer reservations: each one moves its device at most once, and only if it ends COMMITTED; a
    retry of a transfer, however late, returns the first record and changes nothing. */
module Reservations {
  import opened StageTypes
  import opened AssignmentCommits
  import opened HubMachine
  import opened CommandFence
  import opened FenceTheorems

  // ---------------------------------------------------------------- intents only move forward

  /** A pending reservation may end in one way; an ended one and its fields never change. */
  predicate IntentForward(a: Intent, b: Intent) {
    b == a.(status := b.status) && (a.status != Pending ==> b == a)
  }

  ghost predicate TablesForward(t: Tables, u: Tables) {
    && t.log <= u.log
    && (forall id | id in t.intents :: id in u.intents && IntentForward(t.intents[id], u.intents[id]))
  }

  lemma CommitForward(t: Tables, id: Id, h: Handshake)
    requires AckMatches(id, h) && CommitTables(t, id, h).Some?
    ensures TablesForward(t, CommitTables(t, id, h).value)
  {
  }

  lemma LinkForward(s: Hub, a: LinkStep)
    ensures TablesForward(s.t, DoLink(s, a).t)
  {
  }

  lemma HandshakeForward(s: Hub, a: HandshakeStep)
    ensures TablesForward(s.t, DoHandshake(s, a).t)
  {
    hide AckMatches, Preflight, Live, CommitTables;
    if a.Commit? && ReadyToCommit(s, a.id) && CommitTables(s.t, a.id, s.work.handshakes[a.id]).Some? {
      CommitForward(s.t, a.id, s.work.handshakes[a.id]);
    }
  }

  lemma StepForward(s: Hub, a: Action)
    ensures TablesForward(s.t, Apply(s, a).t)
  {
    hide DoLink, DoHandshake, DoDispatch, DoWorld, DoResult, DoScope, NeedsLock;
    match a {
      case Link(x) => LinkForward(s, x);
      case Handshaking(x) => HandshakeForward(s, x);
      case _ => InnerLeavesMoves(s, a);
    }
  }

  lemma {:induction false} RunForward(s: Hub, actions: seq<Action>)
    ensures TablesForward(s.t, Run(s, actions).t)
  {
    hide Apply;
    if actions != [] {
      RunForward(s, actions[..|actions| - 1]);
      StepForward(Run(s, actions[..|actions| - 1]), actions[|actions| - 1]);
    }
  }

  /** A pending reservation ends for one reason: a later attempt finds it stale, the operator who made it takes
      it back, or its own transfer is committed. */
  ghost predicate IntentGoesOn(s: Hub, a: Action, n: Hub, id: Id)
    requires id in s.t.intents
  {
    && id in n.t.intents
    && var i := s.t.intents[id];
    && (n.t.intents[id] == i ||
        (i.status == Pending && a.Handshaking? &&
         match n.t.intents[id].status
         case Pending => false
         case Expired =>
           a.handshake.Reserve? && a.handshake.plan.device == i.device && i.expires <= s.t.env.now &&
           n.t.intents[id] == i.(status := Expired)
         case Cancelled =>
           a.handshake == CancelReservation(id) && id in s.work.handshakes &&
           s.work.handshakes[id].plan.actor == i.actor && s.work.handshakes[id].plan.device == i.device &&
           n.t.intents[id] == i.(status := Cancelled)
         case Committed =>
           a.handshake == Commit(id) && s.t.env.now < i.expires && |n.t.log| == |s.t.log| + 1 &&
           n.t.intents[id] == i.(status := Committed)))
  }

  lemma CommitEndsIntent(t: Tables, id: Id, h: Handshake, other: Id)
    requires id != NO_ID && AckMatches(id, h) && CommitTables(t, id, h).Some? && other in t.intents
    ensures var n := CommitTables(t, id, h).value;
            && other in n.intents
            && (n.intents[other] == t.intents[other] ||
                (other == id && t.intents[id].status == Pending && t.env.now < t.intents[id].expires &&
                 |n.log| == |t.log| + 1 && n.intents[other] == t.intents[other].(status := Committed)))
  {
    hide HasPendingCommand, Activations, LightingConfig, StateShape;
  }

  lemma HandshakeEndsIntent(s: Hub, a: HandshakeStep, id: Id)
    requires id in s.t.intents && NO_ID !in s.work.handshakes
    ensures IntentGoesOn(s, Handshaking(a), DoHandshake(s, a), id)
  {
    hide AckMatches, Preflight, Live, CommitTables, MigrationEligible, DoFence;
    if a.Fence? { FenceMovesNoIntent(s, a.id, a.plan); }
    if a.Commit? && ReadyToCommit(s, a.id) && CommitTables(s.t, a.id, s.work.handshakes[a.id]).Some? {
      CommitEndsIntent(s.t, a.id, s.work.handshakes[a.id], id);
    }
  }

  lemma FenceMovesNoIntent(s: Hub, id: Id, plan: Plan)
    ensures DoFence(s, id, plan).t == s.t
  {
    hide Live, ReservationCurrent, NoPending, Excluded;
  }

  /** In every run, each reservation goes on like this. */
  lemma IntentsEndForCause(env: Env, generation: int, actions: seq<Action>, a: Action, id: Id)
    requires id in Run(Init(env, generation), actions).t.intents
    ensures IntentGoesOn(Run(Init(env, generation), actions), a, Run(Init(env, generation), actions + [a]), id)
  {
    hide Run, DoLink, DoHandshake, DoDispatch, DoWorld, DoResult, DoScope, NeedsLock, ScopesExact, BoundToScope;
    hide IntentGoesOn;
    InitKeepsFence(env, generation);
    RunKeepsFence(Init(env, generation), actions);
    var s := Run(Init(env, generation), actions);
    RunConcat(Init(env, generation), actions, [a]);
    RunOne(s, a);
    SameIntent(s, a, id);
    match a {
      case Link(x) => LinkLeavesIntents(s, x, id);
      case Handshaking(x) => HandshakeEndsIntent(s, x, id);
      case _ => InnerLeavesMoves(s, a); SameIntents(s, a, Apply(s, a), id);
    }
  }

  lemma SameIntent(s: Hub, a: Action, id: Id)
    requires id in s.t.intents
    ensures IntentGoesOn(s, a, s, id)
  {
  }

  lemma SameIntents(s: Hub, a: Action, n: Hub, id: Id)
    requires id in s.t.intents && n.t.intents == s.t.intents
    ensures IntentGoesOn(s, a, n, id)
  {
  }

  lemma LinkLeavesIntents(s: Hub, a: LinkStep, id: Id)
    requires id in s.t.intents
    ensures IntentGoesOn(s, Link(a), DoLink(s, a), id)
  {
  }

  // ---------------------------------------------------------------- retries

  lemma {:induction false} FindInExtension(log: seq<Audit>, more: seq<Audit>, device: Id, key: Id)
    requires log <= more && FindTransfer(log, device, key).Some?
    ensures FindTransfer(more, device, key) == FindTransfer(log, device, key)
  {
    if !(log[0].TransferAudit? && log[0].device == device && log[0].key == key) {
      FindInExtension(log[1..], more[1..], device, key);
    }
  }

  lemma {:induction false} FindAppended(log: seq<Audit>, row: Audit, device: Id, key: Id)
    requires FindTransfer(log, device, key).None?
    requires row.TransferAudit? && row.device == device && row.key == key
    ensures FindTransfer(log + [row], device, key) == Some(row)
  {
    if log != [] {
      assert (log + [row])[1..] == log[1..] + [row];
      FindAppended(log[1..], row, device, key);
    }
  }

  // ---------------------------------------------------------------- at most one move per reservation

  function MovesOf(log: seq<Audit>, id: Id): nat {
    if log == [] then 0
    else MovesOf(log[..|log| - 1], id) + (if log[|log| - 1].TransferAudit? && log[|log| - 1].id == id then 1 else 0)
  }

  ghost predicate OneMoveEach(s: Hub) {
    forall id :: MovesOf(s.t.log, id) == (if id in s.t.intents && s.t.intents[id].status == Committed then 1 else 0)
  }

  /** A commit either leaves transfers and intents alone or commits exactly its own reservation. */
  ghost predicate MoveStep(t: Tables, u: Tables) {
    || (u.log == t.log && forall id :: (id in u.intents && u.intents[id].status == Committed) <==>
                                       (id in t.intents && t.intents[id].status == Committed))
    || (|u.log| == |t.log| + 1 && u.log[..|t.log|] == t.log &&
        var r := u.log[|t.log|];
        if r.TransferAudit? then
          && r.id in t.intents && t.intents[r.id].status == Pending
          && u.intents == t.intents[r.id := t.intents[r.id].(status := Committed)]
        else u.intents == t.intents)
  }

  lemma CommitMoves(t: Tables, id: Id, h: Handshake)
    requires id != NO_ID && AckMatches(id, h) && CommitTables(t, id, h).Some?
    ensures MoveStep(t, CommitTables(t, id, h).value)
  {
  }

  lemma HandshakeMoves(s: Hub, a: HandshakeStep)
    requires NO_ID !in s.work.handshakes
    ensures MoveStep(s.t, DoHandshake(s, a).t)
  {
    hide AckMatches, Preflight, Live, CommitTables;
    if a.Commit? && ReadyToCommit(s, a.id) && CommitTables(s.t, a.id, s.work.handshakes[a.id]).Some? {
      CommitMoves(s.t, a.id, s.work.handshakes[a.id]);
    }
  }

  lemma LinkMoves(s: Hub, a: LinkStep)
    ensures MoveStep(s.t, DoLink(s, a).t)
  {
  }

  lemma StepMoves(s: Hub, a: Action)
    requires NO_ID !in s.work.handshakes
    ensures MoveStep(s.t, Apply(s, a).t)
  {
    hide DoLink, DoHandshake, DoDispatch, DoWorld, DoResult, DoScope, NeedsLock;
    match a {
      case Link(x) => LinkMoves(s, x);
      case Handshaking(x) => HandshakeMoves(s, x);
      case _ => InnerLeavesMoves(s, a);
    }
  }

  lemma MoveStepKeeps(s: Hub, n: Hub)
    requires OneMoveEach(s) && MoveStep(s.t, n.t)
    ensures OneMoveEach(n)
  {
    forall id
      ensures MovesOf(n.t.log, id) == (if id in n.t.intents && n.t.intents[id].status == Committed then 1 else 0)
    {
      assert MovesOf(s.t.log, id) == (if id in s.t.intents && s.t.intents[id].status == Committed then 1 else 0);
      if n.t.log != s.t.log { assert n.t.log[..|n.t.log| - 1] == s.t.log; }
    }
  }

  /** After any run, a reservation has moved its device exactly once if it is COMMITTED and never if
      it is pending, cancelled or expired. */
  lemma {:induction false} OneMovePerReservation(env: Env, generation: int, actions: seq<Action>)
    ensures OneMoveEach(Run(Init(env, generation), actions))
  {
    hide Apply, ScopesExact, BoundToScope, MoveStep;
    var s := Init(env, generation);
    if actions != [] {
      var before := actions[..|actions| - 1];
      OneMovePerReservation(env, generation, before);
      InitKeepsFence(env, generation);
      RunKeepsFence(s, before);
      StepMoves(Run(s, before), actions[|actions| - 1]);
      MoveStepKeeps(Run(s, before), Run(s, actions));
    }
  }

  lemma {:induction false} FoundIsCounted(log: seq<Audit>, device: Id, key: Id)
    requires FindTransfer(log, device, key).Some?
    ensures var r := FindTransfer(log, device, key).value;
            r.TransferAudit? && r.device == device && r.key == key && 1 <= MovesOf(log, r.id)
  {
    if log[0].TransferAudit? && log[0].device == device && log[0].key == key {
      HeadIsCounted(log);
    } else {
      FoundIsCounted(log[1..], device, key);
      MovesOfTail(log, FindTransfer(log, device, key).value.id);
    }
  }

  lemma {:induction false} HeadIsCounted(log: seq<Audit>)
    requires log != [] && log[0].TransferAudit?
    ensures 1 <= MovesOf(log, log[0].id)
  {
    if |log| > 1 { HeadIsCounted(log[..|log| - 1]); }
  }

  lemma {:induction false} MovesOfTail(log: seq<Audit>, id: Id)
    requires log != []
    ensures MovesOf(log[1..], id) <= MovesOf(log, id)
  {
    if |log| > 1 {
      MovesOfTail(log[..|log| - 1], id);
      assert log[1..][..|log| - 2] == log[..|log| - 1][1..];
    }
  }

  /** Committing the same verified transfer again, after any further run of the whole Hub, returns
      the record of the first commit marked as reused and leaves every table as it is. */
  lemma RetryReturnsOriginal(env: Env, generation: int, past: seq<Action>, v: VerifiedTransfer, generated: Id,
                             future: seq<Action>, again: Id)
    requires CommitTransfer(Run(Init(env, generation), past).t, v, generated).Some?
    ensures var s := Run(Init(env, generation), past);
            var first := CommitTransfer(s.t, v, generated).value;
            var later := Run(s.(t := first.tables), future).t;
            CommitTransfer(later, v, again) == Some(TransferOutcome(later, first.record.(reused := true)))
  {
    hide Run, TransferEligible, LightingAudited;
    var s := Run(Init(env, generation), past);
    OneMovePerReservation(env, generation, past);
    var first := CommitTransfer(s.t, v, generated).value;
    var later := Run(s.(t := first.tables), future).t;
    RunForward(s.(t := first.tables), future);
    if FindTransfer(s.t.log, v.device, v.key).None? {
      FindAppended(s.t.log, first.tables.log[|s.t.log|], v.device, v.key);
    } else {
      FoundIsCounted(s.t.log, v.device, v.key);
    }
    FindInExtension(first.tables.log, later.log, v.device, v.key);
  }

  /** What a committed or replayed transfer answers with is the transfer that was asked for. */
  lemma TransferAnswersRequest(t: Tables, v: VerifiedTransfer, generated: Id)
    requires CommitTransfer(t, v, generated).Some?
    ensures var o := CommitTransfer(t, v, generated).value;
            && o.record.device == v.device && o.record.fromProject == v.fromProject && o.record.toProject == v.toProject
            && o.record.fromEpoch == v.epoch && o.record.toEpoch == v.epoch + 1
            && (v.reservation != NO_ID ==> o.record.id == v.reservation)
            && exists i :: 0 <= i < |o.tables.log| && o.tables.log[i].TransferAudit? &&
                 o.tables.log[i].key == v.key && o.tables.log[i].device == v.device &&
                     o.tables.log[i].actor == v.actor &&
                 o.tables.log[i].digest == Sha256(v.challenge) && o.tables.log[i].id == o.record.id &&
                 o.tables.log[i].generation == v.generation
  {
    hide HasPendingCommand, Activations, StateShape, TransferEligible, ReservationMatches;
    var found := FindTransfer(t.log, v.device, v.key);
    if found.Some? {
      FoundIsLogged(t.log, v.device, v.key);
    } else {
      var o := CommitTransfer(t, v, generated).value;
      assert o.tables.log[|t.log|].key == v.key;
    }
  }

  lemma {:induction false} FoundIsLogged(log: seq<Audit>, device: Id, key: Id)
    requires FindTransfer(log, device, key).Some?
    ensures var row := FindTransfer(log, device, key).value;
            row in log && row.TransferAudit? && row.device == device && row.key == key
  {
    if !(log[0].TransferAudit? && log[0].device == device &&
         log[0].key == key) { FoundIsLogged(log[1..], device, key); }
  }
}
