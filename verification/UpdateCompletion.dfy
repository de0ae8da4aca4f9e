/** Firmware updates over whole runs: what a lost connection or a restart of the Hub cuts off, what brings an
    update into each of its states, and that one whose events come in order does complete. */
module UpdateCompletion {
  import opened StageTypes
  import opened FirmwareLifecycle

  // ---------------------------------------------------------------- lost connections

  /** A lost connection interrupts exactly the updates that were on their way to that socket. One that is
      rebooting is expected to drop it, and is spared. */
  lemma LostConnectionCuts(s: Store, device: Id, generation: int, now: int)
    requires device != NO_ID && 0 < generation
    ensures var n := Apply(s, InterruptConnection(device, generation, now));
            && n.rows.Keys == s.rows.Keys
            && (forall id | id in s.rows && s.rows[id].state == Rebooting :: n.rows[id] == s.rows[id])
            && (forall id | id in s.rows && s.rows[id].device == device && s.rows[id].generation == generation ::
                  n.rows[id].state == Interrupted <==>
                  s.rows[id].state in {Sent, UpdateState.Accepted, Downloading, Writing, Verifying, Interrupted})
            && (forall id | id in s.rows && !(s.rows[id].device == device && s.rows[id].generation == generation) ::
                  n.rows[id] == s.rows[id])
            && (forall id | id in s.rows && n.rows[id] != s.rows[id] ::
                  n.rows[id] == s.rows[id].(state := Interrupted, updated := now))
  {
  }

  /** After a restart of the Hub the same holds for every socket there was. */
  lemma RestartCuts(s: Store, now: int)
    ensures var n := Apply(s, Reconcile(now));
            && n.rows.Keys == s.rows.Keys
            && (forall id | id in s.rows && s.rows[id].state == Rebooting :: n.rows[id] == s.rows[id])
            && (forall id | id in s.rows ::
                  n.rows[id].state == Interrupted <==>
                  s.rows[id].state in {Sent, UpdateState.Accepted, Downloading, Writing, Verifying, Interrupted})
            && (forall id | id in s.rows && n.rows[id] != s.rows[id] ::
                  n.rows[id] == s.rows[id].(state := Interrupted, updated := now))
  {
  }

  // ---------------------------------------------------------------- what a device may report

  /** From each state to each next one that the device may report: along the path, a refusal at once, a failure any
      time after it accepted. */
  const MOVES: set<(UpdateState, UpdateState)> := {
    (Sent, UpdateState.Accepted), (Sent, UpdateState.Rejected),
    (UpdateState.Accepted, Downloading), (UpdateState.Accepted, UpdateState.Failed),
    (Downloading, Writing), (Downloading, UpdateState.Failed),
    (Writing, Verifying), (Writing, UpdateState.Failed),
    (Verifying, Rebooting), (Verifying, UpdateState.Failed),
    (Rebooting, UpdateState.Failed)}

  /** A report that nothing else gets in between is stored if and only if it comes from the device, on the bound
      generation, and is one of those; an acceptance that comes too late expires the update. */
  lemma ReportExactly(s: Store, id: Id, device: Id, generation: int, next: UpdateState, now: int)
    requires Sane(s) && id in s.rows
    ensures var u := s.rows[id];
            var n := Apply(s, Report(id, device, generation, next, u, now));
            && n.rows == s.rows[id := n.rows[id]]
            && n.rows[id] ==
               if !(device == u.device && 0 < generation == u.generation) then u
               else if u.state == Sent && u.expires <= now && exists state :: (state, next) in MOVES then
                 u.(state := UpdateState.Expired, updated := now)
               else if (u.state, next) in MOVES then u.(state := next, updated := now)
               else u
  {
    hide Consistent, ValidTransition, DeviceReported;
    ReportedMoves(next);
    TransitionsAreMoves(s.rows[id].state, next);
  }

  lemma TransitionsAreMoves(state: UpdateState, next: UpdateState)
    ensures DeviceReported(next) ==> (ValidTransition(state, next) <==> (state, next) in MOVES)
    ensures (state, next) in MOVES ==> state != next
  {
  }

  lemma ReportedMoves(next: UpdateState)
    ensures DeviceReported(next) <==> exists state :: (state, next) in MOVES
  {
    if next == UpdateState.Accepted || next == UpdateState.Rejected { assert (Sent, next) in MOVES; }
    if next == Downloading { assert (UpdateState.Accepted, next) in MOVES; }
    if next == Writing { assert (Downloading, next) in MOVES; }
    if next == Verifying { assert (Writing, next) in MOVES; }
    if next == Rebooting || next == UpdateState.Failed { assert (Verifying, next) in MOVES; }
  }

  /** An update is issued if and only if its id is new, the manifest passed its checks, it changes the version, and
      it has not expired. */
  lemma IssueExactly(s: Store, id: Id, device: Id, profile: Id, current: Id, target: Id, expires: int, valid: bool,
                     now: int)
    requires Sane(s)
    ensures var n := Apply(s, Issue(id, device, profile, current, target, expires, valid, now));
            if id !in s.rows && valid && current != target && now < expires then
              n.rows == s.rows[id := Update(device, profile, current, target, expires, Issued, 0, 0, now)]
            else n == s
  {
    hide Consistent;
  }

  // ---------------------------------------------------------------- what brings an update where it is

  predicate ReportedBy(e: Event, id: Id, u: Update, next: UpdateState) {
    e.Report? && e.id == id && e.device == u.device && e.generation == u.generation && e.next == next
  }

  predicate ConfirmedBy(e: Event, id: Id, u: Update) {
    e.ConfirmPostReboot? && e.id == id && e.device == u.device && u.generation < e.generation
  }

  /** The event brings update u from one state to the next. */
  predicate Brings(e: Event, id: Id, u: Update, before: UpdateState, after: UpdateState) {
    match after
    case Issued => false
    case Sent =>
      before == Issued && e.MarkSent? && e.id == id && e.device == u.device && e.generation == u.generation &&
      e.now < u.expires
    case Accepted => before == Sent && ReportedBy(e, id, u, after) && e.now < u.expires
    case Downloading => before == UpdateState.Accepted && ReportedBy(e, id, u, after)
    case Writing => before == Downloading && ReportedBy(e, id, u, after)
    case Verifying => before == Writing && ReportedBy(e, id, u, after)
    case Rebooting => before == Verifying && ReportedBy(e, id, u, after)
    case Done =>
      before == Rebooting && ConfirmedBy(e, id, u) && e.profile == u.profile && e.version == u.target
    case Rejected => before == Sent && ReportedBy(e, id, u, after) && e.now < u.expires
    case Failed =>
      || (before == Rebooting && ConfirmedBy(e, id, u) && !(e.profile == u.profile && e.version == u.target))
      || (before == Sent && e.TransportFailed? && e.id == id && e.device == u.device && e.generation == u.generation)
      || (before in {UpdateState.Accepted, Downloading, Writing, Verifying, Rebooting} && ReportedBy(e, id, u, after))
    case Expired =>
      || (before == Issued && e.MarkSent? && e.id == id && e.device == u.device && u.expires <= e.now)
      || (before == Sent && e.Report? && e.id == id && e.generation == u.generation && u.expires <= e.now)
    case Interrupted =>
      before in {Sent, UpdateState.Accepted, Downloading, Writing, Verifying} &&
      (e.Reconcile? || (e.InterruptConnection? && e.device == u.device && e.generation == u.generation))
  }

  /** One event leaves the update alone, or brings it one state further. */
  ghost predicate Moved(s: Store, e: Event, n: Store, id: Id) {
    && id in s.rows && id in s.history && id in n.rows && id in n.history
    && ((n.rows[id] == s.rows[id] && n.history[id] == s.history[id]) ||
        (s.history[id] != [] && n.history[id] == s.history[id] + [n.rows[id].state] &&
         Brings(e, id, n.rows[id], s.history[id][|s.history[id]| - 1], n.rows[id].state)))
  }

  lemma LastState(s: Store, id: Id)
    requires Sane(s) && id in s.rows
    ensures id in s.history && s.history[id] != [] && s.history[id][|s.history[id]| - 1] == s.rows[id].state
  {
  }

  /** The row changed, or it did not and its history did not either. */
  lemma ChangeMoves(s: Store, e: Event, key: Id, v: Update, id: Id)
    requires Sane(s) && id in s.rows && key in s.history
    requires id == key ==> Brings(e, id, v, s.rows[id].state, v.state)
    ensures Moved(s, e, Change(s, key, v), id)
  {
    hide Sane, Brings;
    LastState(s, id);
  }

  lemma SameMoves(s: Store, e: Event, id: Id)
    requires Sane(s) && id in s.rows
    ensures Moved(s, e, s, id)
  {
    hide Consistent, Brings;
  }

  lemma CutMoves(s: Store, e: Event, id: Id, which: set<Id>, now: int)
    requires Sane(s) && id in s.rows
    requires id in which ==>
               Brings(e, id, s.rows[id].(state := Interrupted, updated := now), s.rows[id].state, Interrupted)
    ensures Moved(s, e, Cut(s, which, now), id)
  {
    hide Sane, Brings;
    LastState(s, id);
  }

  lemma LossMoves(s: Store, e: Event, id: Id)
    requires Sane(s) && id in s.rows && (e.InterruptConnection? || e.Reconcile?)
    ensures Moved(s, e, Apply(s, e), id)
  {
    hide Sane, Moved, Cut;
    match e {
      case InterruptConnection(device, generation, now) =>
        SameMoves(s, e, id);
        CutMoves(s, e, id, (set x | x in s.rows && s.rows[x].device == device && s.rows[x].generation == generation &&
                                    InTransfer(s.rows[x].state)), now);
      case Reconcile(now) => CutMoves(s, e, id, (set x | x in s.rows && InTransfer(s.rows[x].state)), now);
    }
  }

  lemma ReportMoves(s: Store, e: Event, id: Id)
    requires Sane(s) && id in s.rows && e.Report?
    ensures Moved(s, e, Apply(s, e), id)
  {
    hide Sane, Moved, Change;
    SameMoves(s, e, id);
    if Apply(s, e) != s {
      var u := s.rows[e.id];
      var next := if u.state == Sent && u.expires <= e.now then UpdateState.Expired else e.next;
      ChangeMoves(s, e, e.id, u.(state := next, updated := e.now), id);
    }
  }

  lemma ConfirmMoves(s: Store, e: Event, id: Id)
    requires Sane(s) && id in s.rows && e.ConfirmPostReboot?
    ensures Moved(s, e, Apply(s, e), id)
  {
    hide Sane, Moved, Change;
    SameMoves(s, e, id);
    if Apply(s, e) != s {
      var u := s.rows[e.id];
      var next := if e.profile == u.profile && e.version == u.target then Done else UpdateState.Failed;
      ChangeMoves(s, e, e.id, u.(state := next, completion := e.generation, updated := e.now), id);
    }
  }

  lemma SendMoves(s: Store, e: Event, id: Id)
    requires Sane(s) && id in s.rows && (e.MarkSent? || e.TransportFailed?)
    ensures Moved(s, e, Apply(s, e), id)
  {
    hide Sane, Moved, Change;
    SameMoves(s, e, id);
    if Apply(s, e) != s {
      var u := s.rows[e.id];
      var v := if e.TransportFailed? then u.(state := UpdateState.Failed, updated := e.now)
               else if u.expires <= e.now then u.(state := UpdateState.Expired, updated := e.now)
               else u.(state := Sent, generation := e.generation, updated := e.now);
      ChangeMoves(s, e, e.id, v, id);
    }
  }

  lemma IssueMoves(s: Store, e: Event, id: Id)
    requires Sane(s) && id in s.rows && e.Issue?
    ensures Moved(s, e, Apply(s, e), id)
  {
    hide Consistent, Brings;
  }

  lemma StepMoves(s: Store, e: Event, id: Id)
    requires Sane(s) && id in s.rows
    ensures Moved(s, e, Apply(s, e), id)
  {
    hide Moved, Apply, Consistent;
    match e {
      case Report(_, _, _, _, _, _) => ReportMoves(s, e, id);
      case ConfirmPostReboot(_, _, _, _, _, _, _) => ConfirmMoves(s, e, id);
      case InterruptConnection(_, _, _) => LossMoves(s, e, id);
      case Reconcile(_) => LossMoves(s, e, id);
      case Issue(_, _, _, _, _, _, _, _) => IssueMoves(s, e, id);
      case _ => SendMoves(s, e, id);
    }
  }

  /** The state at this place of the history was brought by one of the events. */
  ghost predicate Brought(events: seq<Event>, id: Id, j: int)
    requires id in Run(events).rows && id in Run(events).history && 0 < j < |Run(events).history[id]|
  {
    var h := Run(events).history[id];
    exists i :: 0 <= i < |events| && Brings(events[i], id, Run(events).rows[id], h[j - 1], h[j])
  }

  /** Rows keep what an event was matched against. */
  lemma BringsStays(e: Event, id: Id, u: Update, v: Update, before: UpdateState, after: UpdateState)
    requires Brings(e, id, u, before, after) && RowStep(u, v) &&
             (u.generation == 0 ==> before == Issued && after == UpdateState.Expired)
    ensures Brings(e, id, v, before, after)
  {
  }

  /** In every run, each state that an update went through after ISSUED was brought by an event of its own
      kind: sent and accepted ahead of the expiry, reported by the device on the bound generation, failed or
      interrupted for one of the reasons there are, completed by the version it was to be. */
  lemma {:induction false} EveryStateIsBrought(events: seq<Event>, id: Id, j: int)
    requires id in Run(events).rows && id in Run(events).history && 0 < j < |Run(events).history[id]|
    ensures Brought(events, id, j)
  {
    hide Apply, Consistent, Brings;
    UpdatesFollowThePath(events);
    var before, e := events[..|events| - 1], events[|events| - 1];
    UpdatesFollowThePath(before);
    if id !in Run(before).rows {
      NewIsIssued(Run(before), e, id);
    } else {
      StepMoves(Run(before), e, id);
      StepProgresses(Run(before), e);
      if j < |Run(before).history[id]| {
        EveryStateIsBrought(before, id, j);
        var h := Run(before).history[id];
        var i :| 0 <= i < |before| && Brings(before[i], id, Run(before).rows[id], h[j - 1], h[j]);
        OnlyExpiredHasNone(Run(before), id, j);
        BringsStays(before[i], id, Run(before).rows[id], Run(events).rows[id], h[j - 1], h[j]);
        assert events[i] == before[i];
      } else {
        assert events[|events| - 1] == e;
      }
    }
  }

  lemma OnlyExpiredHasNone(s: Store, id: Id, j: int)
    requires Sane(s) && id in s.rows && 0 < j < |s.history[id]|
    ensures s.rows[id].generation == 0 ==> s.history[id][j - 1] == Issued && s.history[id][j] == UpdateState.Expired
  {
  }

  lemma NewIsIssued(s: Store, e: Event, id: Id)
    requires Sane(s) && id !in s.rows && id in Apply(s, e).history
    ensures Apply(s, e).history[id] == [Issued]
  {
    hide Consistent;
  }

  // ---------------------------------------------------------------- an update that completes

  /** An over-the-air update as it should go: the manifest, the two socket generations, when things happen,
      and whether the Hub restarts while the device reboots or only loses the socket. */
  datatype Rollout = Rollout(id: Id, device: Id, profile: Id, current: Id, target: Id, expires: int, first: int,
                             second: int, times: seq<int>, restart: bool)

  predicate InOrder(p: Rollout) {
    && p.device != NO_ID && p.current != p.target && 0 < p.first < p.second && |p.times| == 9
    && p.times[0] < p.expires && p.times[1] < p.expires && p.times[2] < p.expires
  }

  /** The states of the first events; the loss of the socket changes nothing. */
  const STATES: seq<UpdateState> :=
    [Issued, Sent, UpdateState.Accepted, Downloading, Writing, Verifying, Rebooting, Rebooting, Done]

  /** The row after the k-th event. */
  function RowAfter(p: Rollout, k: int): Update
    requires |p.times| == 9 && 1 <= k <= 9
  {
    Update(p.device, p.profile, p.current, p.target, p.expires, STATES[k - 1], if k == 1 then 0 else p.first,
           if k == 9 then p.second else 0, p.times[if k == 8 then 6 else k - 1])
  }

  function EventAt(p: Rollout, k: int): Event
    requires |p.times| == 9 && 0 <= k < 9
  {
    if k == 0 then Issue(p.id, p.device, p.profile, p.current, p.target, p.expires, true, p.times[0])
    else if k == 1 then MarkSent(p.id, p.device, p.first, p.times[1])
    else if k < 7 then Report(p.id, p.device, p.first, STATES[k], RowAfter(p, k), p.times[k])
    else if k == 7 then
      if p.restart then Reconcile(p.times[7]) else InterruptConnection(p.device, p.first, p.times[7])
    else ConfirmPostReboot(p.id, p.device, p.profile, p.target, p.second, RowAfter(p, 8), p.times[8])
  }

  /** The event has to do with this update. */
  predicate Concerns(e: Event, p: Rollout) {
    match e
    case Issue(id, _, _, _, _, _, _, _) => id == p.id
    case MarkSent(id, _, _, _) => id == p.id
    case Report(id, _, _, _, _, _) => id == p.id
    case TransportFailed(id, _, _, _, _) => id == p.id
    case InterruptConnection(device, generation, _) => device == p.device && generation == p.first
    case ConfirmPostReboot(id, _, _, _, _, _, _) => id == p.id
    case Reconcile(_) => true
  }

  /** Of all that concerns the update, the first k events of the rollout happened, in their order; whatever
      else happened in between. */
  ghost predicate Happened(p: Rollout, k: int, events: seq<Event>)
    requires |p.times| == 9 && 0 <= k <= 9
  {
    if events == [] then k == 0
    else
      var e := events[|events| - 1];
      if Concerns(e, p) then 0 < k && e == EventAt(p, k - 1) && Happened(p, k - 1, events[..|events| - 1])
      else Happened(p, k, events[..|events| - 1])
  }

  ghost predicate At(p: Rollout, k: int, s: Store)
    requires |p.times| == 9 && 0 <= k <= 9
  {
    if k == 0 then p.id !in s.rows && p.id !in s.history else p.id in s.rows && s.rows[p.id] == RowAfter(p, k)
  }

  lemma OthersLeaveRow(p: Rollout, k: int, s: Store, e: Event)
    requires InOrder(p) && 0 <= k <= 9 && Sane(s) && At(p, k, s) && !Concerns(e, p)
    ensures At(p, k, Apply(s, e))
  {
    hide Consistent;
  }

  lemma NextMovesOn(p: Rollout, k: int, s: Store)
    requires InOrder(p) && 0 <= k < 9 && Sane(s) && At(p, k, s)
    ensures At(p, k + 1, Apply(s, EventAt(p, k)))
  {
    hide Consistent;
  }

  lemma NotYetIssued(p: Rollout, past: seq<Event>)
    requires |p.times| == 9 && p.id !in Run(past).rows
    ensures At(p, 0, Run(past))
  {
    hide Consistent, Run;
    UpdatesFollowThePath(past);
  }

  lemma {:induction false} RolloutGoesOn(p: Rollout, k: int, past: seq<Event>, future: seq<Event>)
    requires InOrder(p) && 0 <= k <= 9 && p.id !in Run(past).rows && Happened(p, k, future)
    ensures At(p, k, Run(past + future))
  {
    hide Apply, Sane, At, Concerns, EventAt;
    if future == [] {
      assert past + future == past;
      NotYetIssued(p, past);
    } else {
      var before, e := future[..|future| - 1], future[|future| - 1];
      assert (past + future)[..|past + future| - 1] == past + before;
      UpdatesFollowThePath(past + before);
      if Concerns(e, p) {
        RolloutGoesOn(p, k - 1, past, before);
        NextMovesOn(p, k - 1, Run(past + before));
      } else {
        RolloutGoesOn(p, k, past, before);
        OthersLeaveRow(p, k, Run(past + before), e);
      }
    }
  }

  /** From any state that does not know the id: when the events of a rollout happen in their order, with
      anything in between that concerns other updates, the update completes. */
  lemma RolloutCompletes(p: Rollout, past: seq<Event>, future: seq<Event>)
    requires InOrder(p) && p.id !in Run(past).rows && Happened(p, 9, future)
    ensures var s := Run(past + future);
            && p.id in s.rows && s.rows[p.id].state == Done && s.rows[p.id].generation == p.first
            && s.rows[p.id].completion == p.second
  {
    RolloutGoesOn(p, 9, past, future);
  }
}
