/** What the audit log tells after any run: it replays to the stored rows, accounts for every epoch
    exactly once, and holds exactly one activation row for an ACTIVE lighting scope. */
module AuditReplay {
  import opened StageTypes
  import opened AssignmentCommits
  import opened HubMachine
  import opened CommandFence
  import opened FenceTheorems
  import opened AssignmentHistory

  // ---------------------------------------------------------------- the log replays to the rows

  /** How many rows take this device to this epoch. */
  function RowsInto(log: seq<Audit>, device: Id, epoch: int): nat {
    if log == [] then 0
    else
      var last := log[|log| - 1];
      RowsInto(log[..|log| - 1], device, epoch) +
      (if last.device == device && !last.ActivationAudit? && EpochsOf(last).1 == epoch then 1 else 0)
  }

  ghost predicate Replays(s: Hub) {
    && s.trace.enrolled.Keys == s.t.assignments.Keys
    && (forall i | 0 <= i < |s.t.log| :: s.t.log[i].device in s.t.assignments)
    && (forall d | d in s.t.assignments :: Replay(s.trace.enrolled[d], s.t.log, d) == Some(s.t.assignments[d]))
    && (forall d, e | d in s.t.assignments ::
          RowsInto(s.t.log, d, e) == (if 1 < e <= s.t.assignments[d].epoch then 1 else 0))
    && (forall d | d in s.t.assignments :: 1 <= s.t.assignments[d].epoch)
  }

  lemma {:induction false} NoRowsReplay(a: Assignment, log: seq<Audit>, device: Id)
    requires forall i | 0 <= i < |log| :: log[i].device != device
    ensures Replay(a, log, device) == Some(a)
    ensures forall e :: RowsInto(log, device, e) == 0
    ensures forall p, n, e :: Activations(log, device, p, n, e) == 0
  {
    if log != [] { NoRowsReplay(a, log[..|log| - 1], device); }
  }

  lemma AuditedReplays(s: Hub, n: Hub, device: Id)
    requires Replays(s) && Audited(s, n, device)
    ensures Replays(n)
  {
    assert n.t.log[..|n.t.log| - 1] == s.t.log;
    forall d | d in n.t.assignments
      ensures Replay(n.trace.enrolled[d], n.t.log, d) == Some(n.t.assignments[d])
    {
      assert Replay(s.trace.enrolled[d], s.t.log, d) == Some(s.t.assignments[d]);
    }
    forall d, e | d in n.t.assignments
      ensures RowsInto(n.t.log, d, e) == (if 1 < e <= n.t.assignments[d].epoch then 1 else 0)
    {
      assert RowsInto(s.t.log, d, e) == (if 1 < e <= s.t.assignments[d].epoch then 1 else 0);
    }
  }

  lemma StepReplays(s: Hub, n: Hub)
    requires Replays(s) && HistoryStep(s, n)
    ensures Replays(n)
  {
    if d :| Audited(s, n, d) {
      AuditedReplays(s, n, d);
    } else if d :| Enrols(s, n, d) {
      NoRowsReplay(n.t.assignments[d], n.t.log, d);
    }
  }

  lemma InitReplays(env: Env, generation: int)
    ensures var s := Init(env, generation); Replays(s) && NoneAhead(s) && OncePerScope(s)
  {
  }

  /** After any run, replaying a device's audit rows from the row it was enrolled with gives its
      stored row, and each epoch from 2 up to the current one was entered by exactly one row. */
  lemma {:induction false} LogReplaysToRows(env: Env, generation: int, actions: seq<Action>)
    ensures Replays(Run(Init(env, generation), actions))
  {
    hide FenceInv, Apply, HistoryStep, Replays;
    var s := Init(env, generation);
    if actions == [] {
      InitReplays(env, generation);
    } else {
      var before := actions[..|actions| - 1];
      LogReplaysToRows(env, generation, before);
      StepOfRun(env, generation, before, actions[|actions| - 1]);
      StepReplays(Run(s, before), Run(s, actions));
    }
  }

  lemma StepOfRun(env: Env, generation: int, before: seq<Action>, a: Action)
    ensures HistoryStep(Run(Init(env, generation), before), Apply(Run(Init(env, generation), before), a))
  {
    hide Apply, HistoryStep;
    InitKeepsFence(env, generation);
    RunKeepsFence(Init(env, generation), before);
    StepIsHistory(Run(Init(env, generation), before), a);
  }

  // ---------------------------------------------------------------- one scope per epoch

  /** A row only moves on to a later epoch, or from BLOCKED to ACTIVE with the same Project. */
  ghost predicate Forward(a: Assignment, b: Assignment) {
    || a.epoch < b.epoch
    || a == b
    || (a.epoch == b.epoch && a.state == Blocked && a.snapshot == NO_ID &&
        b.state == Active && b.project == a.project && b.snapshot != NO_ID)
  }

  ghost predicate RowsForward(s: Hub, n: Hub) {
    forall d | d in s.t.assignments :: d in n.t.assignments && Forward(s.t.assignments[d], n.t.assignments[d])
  }

  lemma StepForward(s: Hub, n: Hub)
    requires HistoryStep(s, n)
    ensures RowsForward(s, n)
  {
  }

  /** Within one epoch of one device the Project never changes and the snapshot is set at most once,
      whatever happens between two moments of a run. */
  lemma {:induction false} OneScopePerEpoch(env: Env, generation: int, past: seq<Action>, future: seq<Action>)
    ensures RowsForward(Run(Init(env, generation), past), Run(Run(Init(env, generation), past), future))
  {
    hide Apply, HistoryStep;
    var s := Run(Init(env, generation), past);
    if future != [] {
      var before := future[..|future| - 1];
      OneScopePerEpoch(env, generation, past, before);
      InitKeepsFence(env, generation);
      RunKeepsFence(Init(env, generation), past);
      RunKeepsFence(s, before);
      StepIsHistory(Run(s, before), future[|future| - 1]);
      StepForward(Run(s, before), Run(s, future));
    }
  }

  // ---------------------------------------------------------------- one activation row per active scope

  ghost predicate NoneAhead(s: Hub) {
    forall d, p, n, e | d in s.t.assignments &&
      (s.t.assignments[d].epoch < e || (s.t.assignments[d].epoch == e && s.t.assignments[d].state != Active)) ::
        Activations(s.t.log, d, p, n, e) == 0
  }

  ghost predicate LightingScope(s: Hub, d: Id) {
    && d in s.t.devices && d in s.t.assignments && s.t.assignments[d].state == Active
    && s.t.devices[d].protocol == V2 && s.t.devices[d].profile == LightingNode
  }

  ghost predicate OncePerScope(s: Hub) {
    forall d | LightingScope(s, d) ::
      Activations(s.t.log, d, s.t.assignments[d].project, s.t.assignments[d].snapshot, s.t.assignments[d].epoch) == 1
  }

  lemma AuditedOnce(s: Hub, n: Hub, device: Id)
    requires NoneAhead(s) && OncePerScope(s) && Audited(s, n, device) && KeepsV2(s, n)
    ensures NoneAhead(n) && OncePerScope(n)
  {
    assert n.t.log[..|n.t.log| - 1] == s.t.log;
    var a, b := s.t.assignments[device], n.t.assignments[device];
    forall d | LightingScope(n, d)
      ensures Activations(n.t.log, d, n.t.assignments[d].project, n.t.assignments[d].snapshot,
                          n.t.assignments[d].epoch) == 1
    {
      if d != device {
        assert LightingScope(s, d);
      } else {
        assert n.t.log[|s.t.log|].ActivationAudit?;
        assert Activations(s.t.log, d, b.project, b.snapshot, b.epoch) == 0;
      }
    }
    forall d, p, m, e | d in n.t.assignments &&
      (n.t.assignments[d].epoch < e || (n.t.assignments[d].epoch == e && n.t.assignments[d].state != Active))
      ensures Activations(n.t.log, d, p, m, e) == 0
    {
      assert Activations(s.t.log, d, p, m, e) == 0;
    }
  }

  lemma StepOnce(s: Hub, n: Hub)
    requires Replays(s) && NoneAhead(s) && OncePerScope(s) && HistoryStep(s, n)
    ensures NoneAhead(n) && OncePerScope(n)
  {
    if d :| Audited(s, n, d) {
      AuditedOnce(s, n, d);
    } else if d :| Enrols(s, n, d) {
      NoRowsReplay(n.t.assignments[d], n.t.log, d);
      forall x | LightingScope(n, x) ensures LightingScope(s, x) {}
    } else {
      forall x | LightingScope(n, x) ensures LightingScope(s, x) {}
    }
  }

  /** After any run, a v2 Lighting Node that is ACTIVE has exactly one activation row for its scope. */
  lemma {:induction false} ActiveLightingAuditedOnce(env: Env, generation: int, actions: seq<Action>)
    ensures NoneAhead(Run(Init(env, generation), actions)) && OncePerScope(Run(Init(env, generation), actions))
  {
    hide FenceInv, Apply, HistoryStep, Replays, NoneAhead, OncePerScope;
    var s := Init(env, generation);
    if actions == [] {
      InitReplays(env, generation);
    } else {
      var before := actions[..|actions| - 1];
      ActiveLightingAuditedOnce(env, generation, before);
      LogReplaysToRows(env, generation, before);
      StepOfRun(env, generation, before, actions[|actions| - 1]);
      StepOnce(Run(s, before), Run(s, actions));
    }
  }

  /** So the refusal of a transfer on its audit count never fires: on every reachable state a transfer
      that passes the other checks is committed. */
  lemma AuditRefusalNeverFires(env: Env, generation: int, actions: seq<Action>, v: VerifiedTransfer, generated: Id)
    requires var t := Run(Init(env, generation), actions).t;
             WellFormedTransfer(v) && ReservationMatches(t, v) && FindTransfer(t.log, v.device, v.key).None? &&
             TransferEligible(t, v) && (v.reservation != NO_ID ==> t.intents[v.reservation].status == Pending)
    ensures CommitTransfer(Run(Init(env, generation), actions).t, v, generated).Some?
  {
    hide Apply, Run;
    ActiveLightingAuditedOnce(env, generation, actions);
    var s := Run(Init(env, generation), actions);
    if s.t.assignments[v.device].state == Active { assert LightingScope(s, v.device); }
  }
}
