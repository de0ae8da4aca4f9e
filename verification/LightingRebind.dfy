/** Moving a lighting node to another published snapshot: blackout, unassign, reassign, activate. With
    no other operator at work, every call moves the node only forward along that path. */
module LightingRebind {
  import opened StageTypes
  import opened AssignmentCommits
  import opened PreflightAgreement
  import opened Repository

  /** What the rest of the Hub has done to the tables by the time a wait ends. */
  datatype Change = Change(env: Env, devices: map<Id, Device>, commands: map<Id, Command>,
                           acks: map<EpochKey, EpochAck>)

  /** What the world does during one call: what changes in each wait, whether sockets reconnect and
      scopes get enabled in time, the generation current at each stage, the levels a device answers with
      (`None` when it stays silent), and the ids and challenges that are drawn. */
  datatype World = World(
    changes: seq<Change>, reconnects: bool, enabled: bool, challenge: Id, activation: Id,
    firstId: Id, first: Option<seq<int>>, firstGeneration: int,
    secondId: Id, second: Option<seq<int>>, secondGeneration: int,
    epochAck: Option<seq<int>>, activated: Option<seq<int>>, generation: int)

  /** How far along ACTIVE(old), UNASSIGNED, BLOCKED(project), ACTIVE(target) a row stands; -1 is off
      the path. */
  function Progress(a: Assignment, project: Id, snapshot: Id): int {
    match a.state
    case Active =>
      if a.project != project || a.snapshot == NO_ID then -1 else if a.snapshot == snapshot then 3 else 0
    case Unassigned => if a.project == NO_ID && a.snapshot == NO_ID then 1 else -1
    case Blocked => if a.project == project && a.snapshot == NO_ID then 2 else -1
    case Legacy => -1
  }

  /** Forward on the path, one epoch for each of the two transfers passed on the way; a row off the
      path stays. */
  predicate Advances(a: Assignment, b: Assignment, project: Id, snapshot: Id) {
    || a == b
    || (0 <= Progress(a, project, snapshot) < Progress(b, project, snapshot) &&
        b.epoch == a.epoch + Transfers(Progress(b, project, snapshot)) - Transfers(Progress(a, project, snapshot)))
  }

  /** What a rebind call does next with the row it has read. */
  datatype NextStep = Unassign | Reassign | Activate | Enable | Refuse

  function Next(a: Assignment, project: Id, snapshot: Id): NextStep {
    match Progress(a, project, snapshot)
    case 0 => Unassign
    case 1 => Reassign
    case 2 => Activate
    case 3 => Enable
    case _ => Refuse
  }

  function Transfers(progress: int): int {
    if progress <= 0 then 0 else if progress == 1 then 1 else 2
  }

  ghost predicate OthersUntouched(t: Tables, u: Tables, device: Id) {
    u.assignments.Keys == t.assignments.Keys &&
    (forall d | d in t.assignments && d != device :: u.assignments[d] == t.assignments[d])
  }

  /** The tables that other parts of the Hub write are as before. */
  ghost predicate SameWorld(t: Tables, u: Tables) {
    u.env == t.env && u.devices == t.devices && u.commands == t.commands && u.acks == t.acks
  }

  predicate Zero(levels: Option<seq<int>>) {
    levels.Some? && |levels.value| == MAX_CHANNELS && AllZero(levels.value)
  }

  /** Other parts of the Hub work while a call waits; no other operator touches the assignment. */
  method Elsewhere(r: AssignmentRepository, w: World, wait: nat)
    modifies r`env, r`devices, r`commands, r`acks
    ensures |w.changes| <= wait ==> SameWorld(old(r.Rows()), r.Rows())
  {
    if wait < |w.changes| {
      var c := w.changes[wait];
      r.env, r.devices, r.commands, r.acks := c.env, c.devices, c.commands, c.acks;
    }
  }

  /** Reserve, ask for blackout, commit; cancel the reservation if that did not succeed. */
  method ReservedTransfer(r: AssignmentRepository, q: TransferRequest, id: Id, generation: int, challenge: Id,
                          actor: Id, answer: Option<seq<int>>, w: World, wait: nat)
    returns (record: Option<TransferRecord>)
    requires id != NO_ID && id !in r.intents && FindTransfer(r.log, q.device, id).None? && q.device in r.assignments
    modifies r
    ensures record.Some? ==>
              && r.assignments == old(r.assignments)[q.device :=
                   Assignment(NextTransferState(q.toProject), q.toProject, NO_ID, q.epoch + 1)]
              && old(r.assignments)[q.device].epoch == q.epoch && old(r.assignments)[q.device].project == q.fromProject
    ensures record.None? ==> r.assignments == old(r.assignments) && r.log == old(r.log)
    ensures record.None? && id in r.intents ==> r.intents[id].status != Pending
    ensures forall i | i in r.intents && i != id :: i in old(r.intents)
    ensures forall key | key != id :: FindTransfer(r.log, q.device, key) == FindTransfer(old(r.log), q.device, key)
    ensures |w.changes| <= wait ==> SameWorld(old(r.Rows()), r.Rows())
    ensures (|w.changes| <= wait && TransferPreflight(old(r.Rows()), q) && q.epoch < MAX_INT64 && 0 < generation &&
             challenge != NO_ID && actor != NO_ID && Zero(answer)) ==> record.Some?
  {
    hide TransferPreflight;
    record := None;
    ghost var t := r.Rows();
    var reserved := r.ReserveTransferIntent(q, id, generation, MAX_CHANNELS, actor, challenge);
    if !reserved { return; }
    Elsewhere(r, w, wait);
    if |w.changes| <= wait && Zero(answer) && TransferPreflight(t, q) && challenge != NO_ID {
      PreflightNames(t, q);
      ReservedTransferCommits(t, q, id, generation, actor, challenge, answer.value, t.env.now, NO_ID);
      var u := ReserveIntent(t, q, id, generation, MAX_CHANNELS, actor, challenge);
      assert r.Rows() == u == u.(env := u.env.(now := t.env.now));
    }
    if answer.Some? {
      record := r.CommitVerifiedBlackoutTransfer(
        VerifiedTransfer(id, q.device, q.fromProject, q.toProject, q.epoch, generation, challenge, q.device, q.epoch,
                         generation, challenge, true, answer.value, actor, id), NO_ID);
    }
    if record.None? {
      r.CancelTransferIntent(id, q.device, actor);
    } else {
      forall key | key != id
        ensures FindTransfer(r.log, q.device, key) == FindTransfer(old(r.log), q.device, key)
      {
        OtherKeysStay(old(r.log), r.log[|old(r.log)|], q.device, key);
      }
    }
  }

  lemma PreflightNames(t: Tables, q: TransferRequest)
    requires TransferPreflight(t, q)
    ensures q.device != NO_ID && 1 <= q.epoch && q.fromProject != q.toProject
  {
  }

  lemma {:induction false} OtherKeysStay(log: seq<Audit>, row: Audit, device: Id, key: Id)
    requires row.TransferAudit? && row.key != key
    ensures FindTransfer(log + [row], device, key) == FindTransfer(log, device, key)
  {
    if log == [] {
      assert (log + [row])[1..] == [];
    } else {
      assert (log + [row])[1..] == log[1..] + [row];
      OtherKeysStay(log[1..], row, device, key);
    }
  }

  ghost predicate FreshIds(r: AssignmentRepository, device: Id, w: World)
    reads r
  {
    && w.firstId != NO_ID && w.secondId != NO_ID && w.firstId != w.secondId
    && w.firstId !in r.intents && w.secondId !in r.intents
    && FindTransfer(r.log, device, w.firstId).None? && FindTransfer(r.log, device, w.secondId).None?
  }

  /** The node may be activated on this snapshot: it is ready and idle, the snapshot binds it, the Project runs no
      SHOW, and no other Project has taken the acknowledgment of the epoch. */
  ghost predicate Activatable(t: Tables, device: Id, project: Id, snapshot: Id, epoch: int) {
    && device != NO_ID && project != NO_ID && snapshot != NO_ID && 1 < epoch
    && LightingReady(t, device) && !HasPendingCommand(t.commands, device) && project !in t.env.shows
    && LightingConfig(t.env, device, project, snapshot).Some?
    && LightingConfig(t.env, device, project, snapshot) != Some(NO_ID)
    && (EpochKey(device, epoch) in t.acks ==>
          t.acks[EpochKey(device, epoch)].project == project &&
              t.acks[EpochKey(device, epoch)].channels == MAX_CHANNELS)
  }

  /** The device answers both requests of an activation with all channels at zero, and nothing else happens. */
  predicate AnswersActivation(w: World, actor: Id) {
    w.changes == [] && Zero(w.epochAck) && Zero(w.activated) && 0 < w.generation && w.challenge != NO_ID &&
    w.activation != NO_ID && actor != NO_ID
  }

  /** The epoch acknowledgment of the current socket, then the activation handshake on it. */
  method ActivateBlocked(r: AssignmentRepository, device: Id, project: Id, snapshot: Id, epoch: int, actor: Id,
                         w: World)
    returns (activated: bool)
    requires device in r.assignments && r.assignments[device] == Assignment(Blocked, project, NO_ID, epoch)
    requires w.epochAck.Some?
    modifies r
    ensures r.assignments == if activated then
                               old(r.assignments)[device := Assignment(Active, project, snapshot, epoch)]
                             else old(r.assignments)
    ensures AnswersActivation(w, actor) && Activatable(old(r.Rows()), device, project, snapshot, epoch) ==> activated
  {
    hide HasPendingCommand;
    activated := false;
    var acked := r.RecordBlockedEpochAck(device, project, epoch, w.generation, true, w.epochAck.value);
    if !acked { return; }
    Elsewhere(r, w, 6);
    var plan := r.PreflightLightingActivation(device, project, snapshot, epoch, w.generation);
    if plan.None? || w.activated.None? { return; }
    Elsewhere(r, w, 7);
    activated := r.CommitLightingActivation(
      VerifiedActivation(w.activation, device, project, snapshot, epoch, w.generation, w.challenge, plan.value,
                         device, project, snapshot, epoch, w.generation, w.challenge, plan.value, true,
                         w.activated.value, actor));
  }

  /** What a call does next with the rows it acts on; and staying is an advance. */
  lemma Planning(a: Assignment, project: Id, snapshot: Id)
    ensures Advances(a, a, project, snapshot)
    ensures a.state == Active && a.project == project && a.snapshot != NO_ID && a.snapshot != snapshot ==>
              Next(a, project, snapshot) == Unassign
    ensures a.state == Unassigned && a.project == NO_ID && a.snapshot == NO_ID ==>
            Next(a, project, snapshot) == Reassign
    ensures a.state == Blocked && a.project == project && a.snapshot == NO_ID ==> Next(a, project, snapshot) == Activate
  {
  }

  /** Each of the three moves of a call is an advance. */
  lemma MoveAdvances(a: Assignment, b: Assignment, project: Id, snapshot: Id)
    requires snapshot != NO_ID
    requires match Next(a, project, snapshot)
             case Unassign => b == Assignment(Unassigned, NO_ID, NO_ID, a.epoch + 1)
             case Reassign => b == Assignment(Blocked, project, NO_ID, a.epoch + 1)
             case Activate => b == Assignment(Active, project, snapshot, a.epoch)
             case _ => false
    ensures Advances(a, b, project, snapshot)
  {
  }

  /** Everything a call needs: the node is on the path, ready and idle, nothing else happens, and the device
      answers every request with all channels at zero. */
  ghost predicate Cooperates(t: Tables, device: Id, project: Id, snapshot: Id, actor: Id, w: World) {
    && AnswersActivation(w, actor) && w.reconnects && w.enabled
    && Zero(w.first) && Zero(w.second) && 0 < w.firstGeneration && 0 < w.secondGeneration
    && device in t.assignments && project in t.env.projects
    && var a := t.assignments[device];
    && (match a.state
        case Active => a.project == project && a.snapshot != NO_ID &&
                       (a.snapshot == snapshot || LightingAudited(t.log, device, a))
        case Unassigned => a.project == NO_ID && a.snapshot == NO_ID
        case Blocked => a.project == project && a.snapshot == NO_ID && 1 < a.epoch
        case Legacy => false)
    && 1 <= a.epoch && a.epoch + 1 < MAX_INT64
    && forall epoch | a.epoch <= epoch && 1 < epoch :: Activatable(t, device, project, snapshot, epoch)
  }

  lemma UnassignIsAdmitted(t: Tables, device: Id, project: Id, snapshot: Id, actor: Id, w: World)
    requires Cooperates(t, device, project, snapshot, actor, w)
    requires t.assignments[device].state == Active && t.assignments[device].snapshot != snapshot
    ensures TransferPreflight(t, TransferRequest(device, project, NO_ID, t.assignments[device].epoch))
  {
    hide HasPendingCommand, Activations, LightingConfig;
    assert Activatable(t, device, project, snapshot, t.assignments[device].epoch + 1);
  }

  lemma ReassignIsAdmitted(t: Tables, u: Tables, device: Id, project: Id, snapshot: Id, actor: Id, w: World)
    requires Cooperates(t, device, project, snapshot, actor, w) && SameWorld(t, u) && device in u.assignments
    requires var a := u.assignments[device];
             a == Assignment(Unassigned, NO_ID, NO_ID, a.epoch) &&
             t.assignments[device].epoch <= a.epoch <= t.assignments[device].epoch + 1
    ensures TransferPreflight(u, TransferRequest(device, NO_ID, project, u.assignments[device].epoch))
  {
    hide HasPendingCommand, Activations, LightingConfig;
    assert Activatable(t, device, project, snapshot, t.assignments[device].epoch + 1);
  }

  lemma ActivationIsAdmitted(t: Tables, u: Tables, device: Id, project: Id, snapshot: Id, actor: Id, w: World,
                             epoch: int)
    requires Cooperates(t, device, project, snapshot, actor, w) && SameWorld(t, u)
    requires t.assignments[device].epoch <= epoch && 1 < epoch
    ensures Activatable(u, device, project, snapshot, epoch)
  {
    hide HasPendingCommand, LightingConfig;
    assert Activatable(t, device, project, snapshot, epoch);
  }

  /** What a cooperative call starts from. */
  lemma CooperationTells(t: Tables, device: Id, project: Id, snapshot: Id, actor: Id, w: World)
    requires Cooperates(t, device, project, snapshot, actor, w)
    ensures device != NO_ID && project != NO_ID && snapshot != NO_ID && actor != NO_ID && w.changes == []
    ensures device in t.assignments && LightingConfig(t.env, device, project, snapshot).Some?
    ensures w.reconnects && w.enabled && w.epochAck.Some? && AnswersActivation(w, actor) && w.challenge != NO_ID
    ensures Zero(w.first) && Zero(w.second) && 0 < w.firstGeneration && 0 < w.secondGeneration
    ensures var a := t.assignments[device];
            && 1 <= a.epoch && a.epoch + 1 < MAX_INT64
            && (a.state == Active ==> a.project == project && a.snapshot != NO_ID)
            && (a.state == Unassigned ==> a.project == NO_ID && a.snapshot == NO_ID)
            && (a.state == Blocked ==> a.project == project && a.snapshot == NO_ID && 1 < a.epoch)
            && a.state != Legacy
  {
    assert Activatable(t, device, project, snapshot, t.assignments[device].epoch + 1);
  }

  /** The first stage: a node that is ACTIVE on another snapshot is taken out of its Project. */
  method UnassignNode(r: AssignmentRepository, device: Id, project: Id, snapshot: Id, actor: Id, w: World)
    returns (gone: bool)
    requires FreshIds(r, device, w) && device in r.assignments && snapshot != NO_ID
    requires var a := r.assignments[device];
             a.state == Active && a.project == project && a.snapshot != NO_ID && a.snapshot != snapshot
    modifies r
    ensures OthersUntouched(old(r.Rows()), r.Rows(), device)
    ensures Advances(old(r.assignments)[device], r.assignments[device], project, snapshot)
    ensures gone ==> r.assignments[device] == Assignment(Unassigned, NO_ID, NO_ID, old(r.assignments)[device].epoch + 1)
    ensures w.secondId !in r.intents && FindTransfer(r.log, device, w.secondId).None?
    ensures Cooperates(old(r.Rows()), device, project, snapshot, actor, w) ==>
            gone && SameWorld(old(r.Rows()), r.Rows())
  {
    hide FindTransfer, Progress, Advances, Next, Cooperates, TransferPreflight, Zero;
    ghost var t := r.Rows();
    var record := r.assignments[device];
    Planning(record, project, snapshot);
    Elsewhere(r, w, 0);
    if Cooperates(t, device, project, snapshot, actor, w) {
      CooperationTells(t, device, project, snapshot, actor, w);
      UnassignIsAdmitted(t, device, project, snapshot, actor, w);
      assert r.Rows() == t;
    }
    var unassigned := ReservedTransfer(r, TransferRequest(device, project, NO_ID, record.epoch), w.firstId,
                                       w.firstGeneration, w.challenge, actor, w.first, w, 1);
    Elsewhere(r, w, 2);
    if unassigned.Some? { MoveAdvances(record, r.assignments[device], project, snapshot); }
    gone := unassigned.Some? && w.reconnects;
  }

  /** The second stage: an UNASSIGNED node is blocked for the Project, and reports its epoch. */
  method ReassignNode(r: AssignmentRepository, device: Id, project: Id, snapshot: Id, actor: Id, w: World,
                      ghost t: Tables)
    returns (blocked: bool)
    requires w.secondId != NO_ID && w.secondId !in r.intents && FindTransfer(r.log, device, w.secondId).None?
    requires device in r.assignments && project != NO_ID && snapshot != NO_ID
    requires r.assignments[device] == Assignment(Unassigned, NO_ID, NO_ID, r.assignments[device].epoch)
    modifies r
    ensures OthersUntouched(old(r.Rows()), r.Rows(), device)
    ensures Advances(old(r.assignments)[device], r.assignments[device], project, snapshot)
    ensures blocked ==> r.assignments[device].epoch == old(r.assignments)[device].epoch + 1
    ensures (Cooperates(t, device, project, snapshot, actor, w) && SameWorld(t, old(r.Rows())) &&
             t.assignments[device].epoch <= old(r.assignments)[device].epoch <= t.assignments[device].epoch + 1) ==>
              blocked && SameWorld(t, r.Rows()) &&
              r.assignments[device] == Assignment(Blocked, project, NO_ID, old(r.assignments)[device].epoch + 1)
  {
    hide FindTransfer, Progress, Advances, Next, Cooperates, TransferPreflight, Zero;
    var record := r.assignments[device];
    Planning(record, project, snapshot);
    if Cooperates(t, device, project, snapshot, actor, w) {
      CooperationTells(t, device, project, snapshot, actor, w);
      if SameWorld(t, r.Rows()) && t.assignments[device].epoch <= record.epoch <= t.assignments[device].epoch + 1 {
        ReassignIsAdmitted(t, r.Rows(), device, project, snapshot, actor, w);
      }
    }
    var reassigned := ReservedTransfer(r, TransferRequest(device, NO_ID, project, record.epoch), w.secondId,
                                       w.secondGeneration, w.challenge, actor, w.second, w, 3);
    Elsewhere(r, w, 4);
    if reassigned.Some? { MoveAdvances(record, r.assignments[device], project, snapshot); }
    blocked := reassigned.Some? && w.epochAck.Some?;
  }

  /** The last stage: a BLOCKED node that has reported its epoch is activated on the target. */
  method ActivateNode(r: AssignmentRepository, device: Id, project: Id, snapshot: Id, actor: Id, w: World,
                      ghost t: Tables)
    returns (done: bool)
    requires device in r.assignments && project != NO_ID && snapshot != NO_ID
    modifies r
    ensures OthersUntouched(old(r.Rows()), r.Rows(), device)
    ensures Advances(old(r.assignments)[device], r.assignments[device], project, snapshot)
    ensures done ==> r.assignments[device].state == Active && r.assignments[device].project == project &&
                     r.assignments[device].snapshot == snapshot
    ensures (Cooperates(t, device, project, snapshot, actor, w) && SameWorld(t, old(r.Rows())) &&
             old(r.assignments)[device] == Assignment(Blocked, project, NO_ID, old(r.assignments)[device].epoch) &&
             t.assignments[device].epoch <= old(r.assignments)[device].epoch && 1 < old(r.assignments)[device].epoch)
              ==> done
  {
    hide Progress, Advances, Next, Cooperates, Activatable, AnswersActivation, Zero;
    done := false;
    var record := r.assignments[device];
    Planning(record, project, snapshot);
    if Cooperates(t, device, project, snapshot, actor, w) { CooperationTells(t, device, project, snapshot, actor, w); }
    if record.state != Blocked || record.project != project || record.snapshot != NO_ID { return; }
    if w.epochAck.None? { return; }
    Elsewhere(r, w, 5);
    if Cooperates(t, device, project, snapshot, actor, w) && SameWorld(t, r.Rows()) &&
       t.assignments[device].epoch <= record.epoch && 1 < record.epoch {
      ActivationIsAdmitted(t, r.Rows(), device, project, snapshot, actor, w, record.epoch);
    }
    var activated := ActivateBlocked(r, device, project, snapshot, record.epoch, actor, w);
    if activated { MoveAdvances(record, r.assignments[device], project, snapshot); }
    done := activated && w.enabled;
  }

  /** One rebind call. It answers true when the target scope is ACTIVE and enabled; and it does so whenever
      everything it needs is there. */
  method RebindLightingSnapshot(r: AssignmentRepository, device: Id, project: Id, snapshot: Id, actor: Id, w: World)
    returns (done: bool)
    requires FreshIds(r, device, w)
    modifies r
    ensures OthersUntouched(old(r.Rows()), r.Rows(), device)
    ensures device in old(r.assignments) ==>
              Advances(old(r.assignments)[device], r.assignments[device], project, snapshot)
    ensures done ==> device in old(r.assignments) && r.assignments[device].state == Active &&
                     r.assignments[device].project == project && r.assignments[device].snapshot == snapshot
    ensures Cooperates(old(r.Rows()), device, project, snapshot, actor, w) ==> done
  {
    hide FindTransfer, LightingConfig, Progress, Advances, Next, Cooperates, Activatable, AnswersActivation, Zero;
    done := false;
    ghost var t := r.Rows();
    if Cooperates(t, device, project, snapshot, actor, w) { CooperationTells(t, device, project, snapshot, actor, w); }
    if device in r.assignments { Planning(r.assignments[device], project, snapshot); }
    if device == NO_ID || project == NO_ID || snapshot == NO_ID || actor == NO_ID { return; }
    if LightingConfig(r.env, device, project, snapshot).None? { return; }
    if device !in r.assignments { return; }
    var record := r.assignments[device];
    ghost var start := record;
    if record.state == Active && record.project == project && record.snapshot == snapshot {
      return w.enabled;
    }
    if record.state == Active {
      if record.project != project || record.snapshot == NO_ID { return; }
      var gone := UnassignNode(r, device, project, snapshot, actor, w);
      if !gone { return; }
      record := r.assignments[device];
    }
    if record.state == Unassigned {
      if record.project != NO_ID || record.snapshot != NO_ID { return; }
      var blocked := ReassignNode(r, device, project, snapshot, actor, w, t);
      AdvancesAgain(start, record, r.assignments[device], project, snapshot);
      if !blocked { return; }
      record := r.assignments[device];
    }
    done := ActivateNode(r, device, project, snapshot, actor, w, t);
    AdvancesAgain(start, record, r.assignments[device], project, snapshot);
  }

  // ---------------------------------------------------------------- retries

  lemma AdvancesAgain(a: Assignment, b: Assignment, c: Assignment, project: Id, snapshot: Id)
    requires Advances(a, b, project, snapshot) && Advances(b, c, project, snapshot)
    ensures Advances(a, c, project, snapshot)
  {
  }

  /** The bounds that an advance keeps. */
  lemma AdvanceIsBounded(a: Assignment, b: Assignment, project: Id, snapshot: Id)
    requires Advances(a, b, project, snapshot)
    ensures Progress(a, project, snapshot) <= Progress(b, project, snapshot)
    ensures a.epoch <= b.epoch <= a.epoch + 2
    ensures Progress(a, project, snapshot) == 3 ==> b == a
  {
  }
}
