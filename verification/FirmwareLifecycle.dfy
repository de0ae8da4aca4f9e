/** The life of a firmware update: an optimistic state machine that spans two socket generations. A
    writer decides on a row it read earlier; its update only goes through if the row still has the
    state and generation it decided on. */
module FirmwareLifecycle {
  import opened StageTypes

  datatype UpdateState =
    | Issued | Sent | Accepted | Downloading | Writing | Verifying | Rebooting
    | Done | Rejected | Failed | Expired | Interrupted

  /** The signed manifest, and the row around it. Generation 0 stands for NULL; `updated` is the time of the
      last change. */
  datatype Update = Update(device: Id, profile: Id, current: Id, target: Id, expires: int,
                           state: UpdateState, generation: int, completion: int, updated: int)

  /** `history` records the states each row went through. */
  datatype Store = Store(rows: map<Id, Update>, history: map<Id, seq<UpdateState>>)

  const EMPTY := Store(map[], map[])

  predicate Terminal(s: UpdateState) {
    s == Done || s == UpdateState.Rejected || s == UpdateState.Failed || s == UpdateState.Expired || s == Interrupted
  }

  predicate DeviceReported(s: UpdateState) {
    || s == UpdateState.Accepted || s == Downloading || s == Verifying || s == Writing || s == Rebooting
    || s == UpdateState.Rejected || s == UpdateState.Failed
  }

  /** The state may still be cut off by a lost connection. */
  predicate InTransfer(s: UpdateState) {
    s == Sent || s == UpdateState.Accepted || s == Downloading || s == Verifying || s == Writing
  }

  function Rank(s: UpdateState): int {
    match s
    case Sent => 1
    case Accepted => 2
    case Downloading => 3
    case Writing => 4
    case Verifying => 5
    case Rebooting => 6
    case _ => 0
  }

  predicate ValidTransition(current: UpdateState, next: UpdateState) {
    if Terminal(current) then false
    else if next == UpdateState.Rejected then current == Sent
    else if next == UpdateState.Failed then
      current == UpdateState.Accepted || current == Downloading || current == Verifying || current == Writing ||
      current == Rebooting
    else 0 < Rank(current) && Rank(next) == Rank(current) + 1
  }

  datatype Event =
    | Issue(id: Id, device: Id, profile: Id, current: Id, target: Id, expires: int, valid: bool, now: int)
    | MarkSent(id: Id, device: Id, generation: int, now: int)
    | Report(id: Id, device: Id, generation: int, next: UpdateState, seen: Update, now: int)
    | TransportFailed(id: Id, device: Id, generation: int, seen: Update, now: int)
    | InterruptConnection(device: Id, generation: int, now: int)
    | ConfirmPostReboot(id: Id, device: Id, profile: Id, version: Id, generation: int, seen: Update, now: int)
    | Reconcile(now: int)

  function Change(s: Store, id: Id, u: Update): Store
    requires id in s.history
  {
    Store(s.rows[id := u], s.history[id := s.history[id] + [u.state]])
  }

  /** The compare-and-swap of one row: device, generation and state as they were decided on. */
  predicate Unchanged(s: Store, id: Id, device: Id, generation: int, state: UpdateState) {
    && id in s.rows && id in s.history
    && s.rows[id].device == device && s.rows[id].generation == generation && s.rows[id].state == state
  }

  /** What an earlier read of this row can have returned: its manifest never changes. */
  predicate ReadFrom(s: Store, id: Id, seen: Update) {
    id in s.rows &&
    seen == s.rows[id].(state := seen.state, generation := seen.generation, completion := seen.completion,
                        updated := seen.updated)
  }

  /** `valid` is the verdict of the manifest checks that concern neither versions nor expiry. */
  function DoIssue(s: Store, id: Id, u: Update, valid: bool): Store {
    if !valid || u.current == u.target || u.expires <= u.updated || id in s.rows || id in s.history then s
    else Store(s.rows[id := u], s.history[id := [u.state]])
  }

  function DoMarkSent(s: Store, id: Id, device: Id, generation: int, now: int): Store {
    if generation <= 0 || id !in s.rows || id !in s.history || s.rows[id].device != device ||
       s.rows[id].state != Issued then s
    else if s.rows[id].expires <= now then Change(s, id, s.rows[id].(state := UpdateState.Expired, updated := now))
    else Change(s, id, s.rows[id].(state := Sent, generation := generation, updated := now))
  }

  function DoReport(s: Store, id: Id, device: Id, generation: int, next: UpdateState, seen: Update, now: int): Store {
    if generation <= 0 || !DeviceReported(next) || !ReadFrom(s, id, seen) || seen.device != device ||
       seen.generation != generation || seen.state == next then s
    else if seen.state == Sent && seen.expires <= now then
      if Unchanged(s, id, device, generation, Sent)
      then Change(s, id, s.rows[id].(state := UpdateState.Expired, updated := now)) else s
    else if !ValidTransition(seen.state, next) then s
    else if Unchanged(s, id, device, generation, seen.state)
    then Change(s, id, s.rows[id].(state := next, updated := now)) else s
  }

  function DoTransportFailed(s: Store, id: Id, device: Id, generation: int, seen: Update, now: int): Store {
    if !ReadFrom(s, id, seen) || seen.device != device || seen.generation != generation || Terminal(seen.state) then s
    else if Unchanged(s, id, device, generation, Sent)
    then Change(s, id, s.rows[id].(state := UpdateState.Failed, updated := now)) else s
  }

  /** Everything in transfer that matches is interrupted at once. */
  function Cut(s: Store, which: set<Id>, now: int): Store {
    Store(map id | id in s.rows :: if id in which then s.rows[id].(state := Interrupted, updated := now)
          else s.rows[id],
          map id | id in s.history :: if id in which then s.history[id] + [Interrupted] else s.history[id])
  }

  function DoInterrupt(s: Store, device: Id, generation: int, now: int): Store {
    if device == NO_ID || generation <= 0 then s
    else Cut(s, (set id | id in s.rows && s.rows[id].device == device && s.rows[id].generation == generation &&
                         InTransfer(s.rows[id].state)), now)
  }

  function DoReconcile(s: Store, now: int): Store {
    Cut(s, (set id | id in s.rows && InTransfer(s.rows[id].state)), now)
  }

  function DoConfirm(s: Store, id: Id, device: Id, profile: Id, version: Id, generation: int, seen: Update, now: int)
    : Store
  {
    if device == NO_ID || generation <= 0 || !ReadFrom(s, id, seen) || seen.generation <= 0 ||
       generation <= seen.generation then s
    else if Unchanged(s, id, device, seen.generation, Rebooting) then
      var next := if profile == seen.profile && version == seen.target then Done else UpdateState.Failed;
      Change(s, id, s.rows[id].(state := next, completion := generation, updated := now))
    else s
  }

  function Apply(s: Store, e: Event): Store {
    match e
    case Issue(id, device, profile, current, target, expires, valid, now) =>
      DoIssue(s, id, Update(device, profile, current, target, expires, Issued, 0, 0, now), valid)
    case MarkSent(id, device, generation, now) => DoMarkSent(s, id, device, generation, now)
    case Report(id, device, generation, next, seen, now) => DoReport(s, id, device, generation, next, seen, now)
    case TransportFailed(id, device, generation, seen, now) => DoTransportFailed(s, id, device, generation, seen, now)
    case InterruptConnection(device, generation, now) => DoInterrupt(s, device, generation, now)
    case ConfirmPostReboot(id, device, profile, version, generation, seen, now) =>
      DoConfirm(s, id, device, profile, version, generation, seen, now)
    case Reconcile(now) => DoReconcile(s, now)
  }

  function Run(events: seq<Event>): Store {
    if events == [] then EMPTY else Apply(Run(events[..|events| - 1]), events[|events| - 1])
  }

  // ---------------------------------------------------------------- histories

  /** The only way to completion. */
  const PATH: seq<UpdateState> := [Issued, Sent, UpdateState.Accepted, Downloading, Writing, Verifying, Rebooting, Done]

  predicate OnPath(h: seq<UpdateState>) {
    1 <= |h| <= |PATH| && h == PATH[..|h|]
  }

  /** Along the path, perhaps ended early by a state that says why. */
  predicate Legal(h: seq<UpdateState>) {
    || OnPath(h)
    || (2 <= |h| && OnPath(h[..|h| - 1]) && !Terminal(h[|h| - 2]) && Terminal(h[|h| - 1]) && h[|h| - 1] != Done)
  }

  /** The row agrees with its history: the generation was bound when the update was sent, and a second,
      larger one confirmed the reboot. */
  predicate Consistent(u: Update, h: seq<UpdateState>) {
    && Legal(h) && h[|h| - 1] == u.state && u.current != u.target
    && (u.generation == 0 <==> h == [Issued] || h == [Issued, UpdateState.Expired])
    && 0 <= u.generation
    && (u.completion == 0 || (u.generation < u.completion && |h| == |PATH| && h[..|h| - 1] == PATH[..|PATH| - 1]))
    && (u.state == Done ==> u.completion != 0)
  }

  predicate Sane(s: Store) {
    s.rows.Keys == s.history.Keys && forall id | id in s.rows :: Consistent(s.rows[id], s.history[id])
  }

  lemma ExtendHistory(h: seq<UpdateState>, next: UpdateState)
    requires OnPath(h) && !Terminal(h[|h| - 1])
    requires (Terminal(next) && next != Done) || (|h| < |PATH| && next == PATH[|h|])
    ensures Legal(h + [next])
  {
    assert (h + [next])[..|h|] == h;
  }

  /** A row that is not terminal is on the path, as far as its state says. */
  lemma WhereOnPath(u: Update, h: seq<UpdateState>)
    requires Consistent(u, h) && !Terminal(u.state)
    ensures OnPath(h) && |h| < |PATH| && u.completion == 0
    ensures |h| == if u.state == Issued then 1 else Rank(u.state) + 1
    ensures (u.generation == 0) == (u.state == Issued)
  {
  }

  /** One row may change only like this. */
  predicate RowStep(u: Update, v: Update) {
    && v == u.(state := v.state, generation := v.generation, completion := v.completion, updated := v.updated)
    && (u.generation != 0 ==> v.generation == u.generation)
    && (Terminal(u.state) ==> v == u)
  }

  // ---------------------------------------------------------------- one event

  ghost predicate Progress(s: Store, n: Store) {
    Sane(n) && forall id | id in s.rows :: id in n.rows && RowStep(s.rows[id], n.rows[id])
  }

  lemma ChangeProgresses(s: Store, id: Id, v: Update)
    requires Sane(s) && id in s.rows && !Terminal(s.rows[id].state) && RowStep(s.rows[id], v)
    requires Consistent(v, s.history[id] + [v.state])
    ensures Progress(s, Change(s, id, v))
  {
    hide Consistent;
  }

  lemma SentProgresses(s: Store, id: Id, device: Id, generation: int, now: int)
    requires Sane(s)
    ensures Progress(s, DoMarkSent(s, id, device, generation, now))
  {
    var n := DoMarkSent(s, id, device, generation, now);
    if n != s {
      WhereOnPath(s.rows[id], s.history[id]);
      ExtendHistory(s.history[id], n.rows[id].state);
      assert s.history[id] == [Issued];
      ChangeProgresses(s, id, n.rows[id]);
    }
  }

  /** Any state that the device may report next, and any early end, keeps the history legal. */
  lemma MoveProgresses(s: Store, id: Id, next: UpdateState, now: int)
    requires Sane(s) && id in s.rows && !Terminal(s.rows[id].state) && s.rows[id].state != Issued
    requires (Terminal(next) && next != Done) ||
             (0 < Rank(s.rows[id].state) && Rank(next) == Rank(s.rows[id].state) + 1)
    ensures Progress(s, Change(s, id, s.rows[id].(state := next, updated := now)))
  {
    var u, h := s.rows[id], s.history[id];
    WhereOnPath(u, h);
    ExtendHistory(h, next);
    ChangeProgresses(s, id, u.(state := next, updated := now));
  }

  lemma ReportProgresses(s: Store, id: Id, device: Id, generation: int, next: UpdateState, seen: Update, now: int)
    requires Sane(s)
    ensures Progress(s, DoReport(s, id, device, generation, next, seen, now))
  {
    hide Consistent, Legal;
    var n := DoReport(s, id, device, generation, next, seen, now);
    if n != s { MoveProgresses(s, id, n.rows[id].state, now); }
  }

  lemma ConfirmProgresses(s: Store, id: Id, device: Id, profile: Id, version: Id, generation: int, seen: Update,
                          now: int)
    requires Sane(s)
    ensures Progress(s, DoConfirm(s, id, device, profile, version, generation, seen, now))
  {
    var n := DoConfirm(s, id, device, profile, version, generation, seen, now);
    if n != s {
      var u, h := s.rows[id], s.history[id];
      WhereOnPath(u, h);
      ExtendHistory(h, n.rows[id].state);
      assert (h + [n.rows[id].state])[..|h|] == h;
      ChangeProgresses(s, id, n.rows[id]);
    }
  }

  lemma CutRow(u: Update, h: seq<UpdateState>, now: int)
    requires Consistent(u, h) && InTransfer(u.state)
    ensures Consistent(u.(state := Interrupted, updated := now), h + [Interrupted])
  {
    WhereOnPath(u, h);
    ExtendHistory(h, Interrupted);
    assert (h + [Interrupted])[..|h|] == h;
  }

  lemma CutProgresses(s: Store, which: set<Id>, now: int)
    requires Sane(s) && forall id | id in which :: id in s.rows && InTransfer(s.rows[id].state)
    ensures Progress(s, Cut(s, which, now))
  {
    hide Consistent;
    var n := Cut(s, which, now);
    assert forall id :: id in n.rows <==> id in n.history;
    forall id | id in n.rows ensures Consistent(n.rows[id], n.history[id]) {
      if id in which { CutRow(s.rows[id], s.history[id], now); }
    }
  }

  lemma StepProgresses(s: Store, e: Event)
    requires Sane(s)
    ensures Progress(s, Apply(s, e))
  {
    hide Consistent, DoMarkSent, DoReport, DoConfirm, Cut, RowStep;
    match e {
      case Issue(id, device, profile, current, target, expires, valid, now) =>
        IssueProgresses(s, id, Update(device, profile, current, target, expires, Issued, 0, 0, now), valid);
      case MarkSent(id, device, generation, now) => SentProgresses(s, id, device, generation, now);
      case Report(id, device, generation, next, seen, now) =>
        ReportProgresses(s, id, device, generation, next, seen, now);
      case TransportFailed(id, device, generation, seen, now) =>
        SameProgresses(s);
        if Apply(s, e) != s { MoveProgresses(s, id, UpdateState.Failed, now); }
      case InterruptConnection(device, generation, now) =>
        SameProgresses(s);
        CutProgresses(s, (set id | id in s.rows && s.rows[id].device == device && s.rows[id].generation == generation &&
                                  InTransfer(s.rows[id].state)), now);
      case ConfirmPostReboot(id, device, profile, version, generation, seen, now) =>
        ConfirmProgresses(s, id, device, profile, version, generation, seen, now);
      case Reconcile(now) => CutProgresses(s, (set id | id in s.rows && InTransfer(s.rows[id].state)), now);
    }
  }

  lemma SameProgresses(s: Store)
    requires Sane(s)
    ensures Progress(s, s)
  {
  }

  lemma IssueProgresses(s: Store, id: Id, u: Update, valid: bool)
    requires Sane(s) && u.state == Issued && u.generation == 0 && u.completion == 0
    ensures Progress(s, DoIssue(s, id, u, valid))
  {
  }

  // ---------------------------------------------------------------- runs

  /** After any events, with any stale reads in between: every update has followed the path and ended
      at most once, so it made at most seven changes; its generation was bound when it was sent; and a
      completed one took every step in order and was confirmed on a strictly larger generation. */
  lemma {:induction false} UpdatesFollowThePath(events: seq<Event>)
    ensures Sane(Run(events))
    ensures forall id | id in Run(events).rows ::
              var u, h := Run(events).rows[id], Run(events).history[id];
              |h| <= 8 && (u.state == Done ==> h == PATH && 0 < u.generation < u.completion)
  {
    hide Apply;
    if events != [] {
      UpdatesFollowThePath(events[..|events| - 1]);
      StepProgresses(Run(events[..|events| - 1]), events[|events| - 1]);
    }
  }

  /** Between any two moments of a run, a bound generation stays and a terminal row stays as it is. */
  lemma {:induction false} EndsAndGenerationsAreFinal(past: seq<Event>, future: seq<Event>)
    ensures forall id | id in Run(past).rows ::
              id in Run(past + future).rows && RowStep(Run(past).rows[id], Run(past + future).rows[id])
  {
    hide Apply, Sane;
    if future == [] {
      assert past + future == past;
    } else {
      var before := future[..|future| - 1];
      EndsAndGenerationsAreFinal(past, before);
      assert (past + future)[..|past + future| - 1] == past + before;
      UpdatesFollowThePath(past + before);
      StepProgresses(Run(past + before), future[|future| - 1]);
    }
  }

  /** Only a confirmation that reports the profile and the target version of the manifest, on a larger
      generation, completes an update. */
  lemma CompletedByTarget(s: Store, e: Event, id: Id)
    requires Sane(s) && id in s.rows && s.rows[id].state != Done && id in Apply(s, e).rows &&
             Apply(s, e).rows[id].state == Done
    ensures e.ConfirmPostReboot? && e.id == id && e.version == s.rows[id].target && e.profile == s.rows[id].profile
    ensures s.rows[id].state == Rebooting && s.rows[id].generation < e.generation == Apply(s, e).rows[id].completion
  {
    hide Consistent;
  }

  /** After any events, a completed update was confirmed by an event that reported the profile and the target
      version of its manifest, on the generation that the row names; and the target is a new version. */
  lemma {:induction false} CompletedByReport(events: seq<Event>, id: Id) returns (i: int)
    requires id in Run(events).rows && Run(events).rows[id].state == Done
    ensures 0 <= i < |events| && events[i].ConfirmPostReboot? && events[i].id == id
    ensures var u := Run(events).rows[id];
            && events[i].version == u.target != u.current && events[i].profile == u.profile
            && events[i].generation == u.completion && u.generation < u.completion
  {
    hide Apply, Consistent;
    var before, e := events[..|events| - 1], events[|events| - 1];
    UpdatesFollowThePath(events);
    UpdatesFollowThePath(before);
    DoneIsNew(Run(events), id);
    if id in Run(before).rows && Run(before).rows[id].state == Done {
      i := CompletedByReport(before, id);
      StepProgresses(Run(before), e);
    } else {
      i := |events| - 1;
      IssuedIsNotDone(Run(before), e, id);
      CompletedByTarget(Run(before), e, id);
      StepProgresses(Run(before), e);
    }
  }

  lemma DoneIsNew(s: Store, id: Id)
    requires Sane(s) && id in s.rows
    ensures s.rows[id].current != s.rows[id].target
  {
  }

  lemma IssuedIsNotDone(s: Store, e: Event, id: Id)
    requires id in Apply(s, e).rows && Apply(s, e).rows[id].state == Done && Sane(s)
    ensures id in s.rows
  {
    hide Consistent;
  }
}
