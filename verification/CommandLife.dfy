/** The life of a command: which steps store, end or delete its row, whose word a terminal status is, and that an
    undisturbed Dispatch reaches the device and its result comes back. */
module CommandLife {
  import opened StageTypes
  import opened AssignmentCommits
  import opened HubMachine
  import opened CommandFence
  import opened FenceTheorems
  import opened Connections

  // ---------------------------------------------------------------- one step

  /** The step ends command c with this status: the device's own result, from the socket the command was bound
      to; a caller that gives up waiting; a frame that could not be written; or a lost socket. */
  ghost predicate Ends(s: Hub, a: Action, c: Id, status: CommandStatus) {
    || (a.Result? && a.result.StoreResult? && a.result.socket in s.work.answers &&
        s.work.answers[a.result.socket] == Answer(c, status, Taken))
    || (a == Result(InterruptCaller(c, status)) && c in s.work.callers && status in {CancelledCommand, TimedOut})
    || (a == Dispatching(GiveUp(c)) && status == Failed && c in s.work.dispatches &&
        s.work.dispatches[c].stage.Failing?)
    || (a == Link(FailInterrupted(c)) && status == Failed && c in s.work.interrupted &&
        s.work.interrupted[c] in s.net.sockets && !s.net.sockets[s.work.interrupted[c]].open)
  }

  /** The insert of a command, by the Dispatch that has looked for its idempotency key. */
  ghost predicate Inserts(s: Hub, a: Action, c: Id) {
    a == Dispatching(Store(c)) && c in s.work.dispatches && s.work.dispatches[c].stage == Cleared && c !in s.t.commands
  }

  /** A stored row that could not be recorded is taken back by its own Dispatch. */
  ghost predicate TakesBack(s: Hub, a: Action, c: Id) {
    && a == Dispatching(Abort(c)) && c in s.work.dispatches && s.work.dispatches[c].stage == Stored
    && c in s.t.commands && s.t.commands[c].status == Accepted
  }

  ghost predicate RowGoesOn(s: Hub, a: Action, n: Hub, c: Id) {
    if c !in s.t.commands then
      if Inserts(s, a, c) then
        var d := s.work.dispatches[c];
        c in n.t.commands && n.t.commands[c] == Command(d.device, d.project, d.snapshot, d.key, Accepted)
      else c !in n.t.commands
    else if TakesBack(s, a, c) then c !in n.t.commands
    else
      && c in n.t.commands
      && n.t.commands[c] == s.t.commands[c].(status := n.t.commands[c].status)
      && (s.t.commands[c].status == Accepted ==>
            forall status | status != Accepted :: Ends(s, a, c, status) <==> n.t.commands[c].status == status)
      && (s.t.commands[c].status != Accepted ==>
            n.t.commands[c].status == if a == Result(ReopenCommand(c)) then Accepted else s.t.commands[c].status)
  }

  lemma ReadsLeaveCommands(s: Hub, a: DispatchStep)
    requires OnlyReads(a)
    ensures DoDispatch(s, a).t == s.t
  {
    hide DeviceMay, StandsFor, Fresh, DoCheck, DoStore, DoAbort, DoBind, DoSend, DoFail;
    if a.Check? { CheckLeavesTables(s, a.command); }
  }

  lemma CheckLeavesTables(s: Hub, c: Id)
    ensures DoCheck(s, c).t == s.t
  {
    hide ScopeMay;
  }

  lemma BindLeavesCommands(s: Hub, a: DispatchStep)
    requires a.Bind? || a.Send?
    ensures DoDispatch(s, a).t == s.t
  {
    hide CanBind, FrameOf, DoAsk, DoCheck, DoFind, DoDuplicate, DoStore, DoAbort, DoFail;
  }

  lemma DispatchRowGoesOn(s: Hub, a: DispatchStep, c: Id)
    ensures RowGoesOn(s, Dispatching(a), DoDispatch(s, a), c)
  {
    hide DoAsk, DoCheck, DoFind, DoDuplicate, DoBind, DoSend;
    if OnlyReads(a) {
      ReadsLeaveCommands(s, a);
    } else if a.Bind? || a.Send? {
      BindLeavesCommands(s, a);
    }
  }

  lemma ResultGoesOn(s: Hub, a: ResultStep, c: Id)
    requires forall k | k in s.work.answers :: s.work.answers[k].status != Accepted
    ensures RowGoesOn(s, Result(a), DoResult(s, a), c)
  {
    hide MayAnswer, Starting, Unbound;
  }

  lemma LinkRowGoesOn(s: Hub, a: LinkStep, c: Id)
    ensures RowGoesOn(s, Link(a), DoLink(s, a), c)
  {
    hide ReconnectLegal;
  }

  lemma HandshakeLeavesCommands(s: Hub, a: HandshakeStep)
    ensures DoHandshake(s, a).t.commands == s.t.commands
  {
    hide Preflight, AckMatches, Live, DropPending, ReservationCurrent, ExpireStale, DoFence, DoCommit,
         MigrationEligible;
    if a.Commit? { CommitLeavesCommands(s, a.id); }
    if a.Fence? { FenceMovesNoRow(s, a.id, a.plan); }
  }

  lemma CommitLeavesCommands(s: Hub, id: Id)
    ensures DoCommit(s, id).t.commands == s.t.commands
  {
    hide AckMatches, Live, CommitTables;
    if ReadyToCommit(s, id) && CommitTables(s.t, id, s.work.handshakes[id]).Some? {
      TransactionLeavesCommands(s.t, id, s.work.handshakes[id]);
    }
  }

  lemma TransactionLeavesCommands(t: Tables, id: Id, h: Handshake)
    requires AckMatches(id, h) && CommitTables(t, id, h).Some?
    ensures CommitTables(t, id, h).value.commands == t.commands
  {
  }

  lemma ScopeLeavesCommands(s: Hub, a: ScopeStep)
    ensures DoScope(s, a).t.commands == s.t.commands
  {
    hide ScopeAuthoritative, ScopeReported;
  }

  /** No answer under way says ACCEPTED. */
  ghost predicate AnswersTerminal(s: Hub) {
    forall k | k in s.work.answers :: s.work.answers[k].status != Accepted
  }

  /** What one step does to the row of one command. */
  lemma CommandGoesOn(s: Hub, a: Action, c: Id)
    requires AnswersTerminal(s)
    ensures RowGoesOn(s, a, Apply(s, a), c)
  {
    hide DoWorld, DoLink, DoDispatch, DoResult, DoScope, DoHandshake;
    if s.net.closing.Some? && NeedsLock(a) { return; }
    match a {
      case World(x) => WorldLeavesCommands(s, x);
      case Link(x) => LinkRowGoesOn(s, x, c);
      case Dispatching(x) => DispatchRowGoesOn(s, x, c);
      case Result(x) => ResultGoesOn(s, x, c);
      case Scoping(x) => ScopeLeavesCommands(s, x);
      case Handshaking(x) => HandshakeLeavesCommands(s, x);
    }
  }

  lemma WorldLeavesCommands(s: Hub, a: WorldStep)
    ensures DoWorld(s, a).t.commands == s.t.commands
  {
  }

  /** Somebody waits for a command from the moment that its Dispatch returns, or that a duplicate request is handed
      it, until the Hub restarts. */
  ghost predicate CallersGoOn(s: Hub, a: DispatchStep, n: Hub, c: Id) {
    c in n.work.callers <==>
      || c in s.work.callers
      || (a == Send(c, true) && c in s.work.dispatches && s.work.dispatches[c].stage.Bound? &&
          s.work.dispatches[c].stage.socket in s.net.sockets && s.net.sockets[s.work.dispatches[c].stage.socket].open)
      || (a == GiveUp(c) && c in s.work.dispatches && s.work.dispatches[c].stage.Failing?)
      || (a.Duplicate? && a.existing == c && a.command in s.work.dispatches &&
          s.work.dispatches[a.command].stage in {Checked, Cleared} && c in s.t.commands &&
          s.t.commands[c].device == s.work.dispatches[a.command].device &&
          s.t.commands[c].key == s.work.dispatches[a.command].key != NO_ID)
  }

  lemma DispatchKeepsCallers(s: Hub, a: DispatchStep, c: Id)
    ensures CallersGoOn(s, a, DoDispatch(s, a), c)
  {
    hide DoCheck, DoBind, DoAsk, DoFind, DoStore, DoAbort, Complete, FrameOf, Shut, Unbound;
    match a {
      case Ask(x, device, project, snapshot, key) => AskKeepsCallers(s, x, device, project, snapshot, key);
      case Check(x) => CheckKeepsCallers(s, x);
      case Find(x) => FindKeepsCallers(s, x);
      case Store(x) => StoreKeepsCallers(s, x);
      case Abort(x) => AbortKeepsCallers(s, x);
      case Bind(x, capable) => BindKeepsCallers(s, x, capable);
      case _ =>
    }
  }

  lemma AskKeepsCallers(s: Hub, c: Id, device: Id, project: Id, snapshot: Id, key: Id)
    ensures DoAsk(s, c, device, project, snapshot, key).work.callers == s.work.callers
  {
    hide DeviceMay;
  }

  lemma CheckKeepsCallers(s: Hub, c: Id)
    ensures DoCheck(s, c).work.callers == s.work.callers
  {
    hide ScopeMay;
  }

  lemma FindKeepsCallers(s: Hub, c: Id)
    ensures DoFind(s, c).work.callers == s.work.callers
  {
    hide StandsFor;
  }

  lemma StoreKeepsCallers(s: Hub, c: Id)
    ensures DoStore(s, c).work.callers == s.work.callers
  {
  }

  lemma AbortKeepsCallers(s: Hub, c: Id)
    ensures DoAbort(s, c).work.callers == s.work.callers
  {
  }

  lemma BindKeepsCallers(s: Hub, c: Id, capable: bool)
    ensures DoBind(s, c, capable).work.callers == s.work.callers
  {
    hide CanBind;
  }

  // ---------------------------------------------------------------- whose word a terminal status is

  /** Somewhere in the run, somebody said that command c ends with this status. */
  ghost predicate Said(actions: seq<Action>, c: Id, status: CommandStatus) {
    exists i :: 0 <= i < |actions| && SaysSo(actions[i], c, status)
  }

  predicate SaysSo(a: Action, c: Id, status: CommandStatus) {
    || (a.Result? && a.result.AllowResult? && a.result.command == c && a.result.status == status)
    || (a == Result(InterruptCaller(c, status)) && status in {CancelledCommand, TimedOut})
    || (status == Failed && (a == Dispatching(GiveUp(c)) || a == Link(FailInterrupted(c))))
  }

  ghost predicate AllSaid(s: Hub, actions: seq<Action>) {
    && AnswersTerminal(s)
    && (forall k | k in s.work.answers ::
          exists i :: 0 <= i < |actions| &&
            actions[i] == Result(AllowResult(k, s.work.answers[k].command, s.work.answers[k].status)))
    && (forall c | c in s.t.commands && s.t.commands[c].status != Accepted :: Said(actions, c, s.t.commands[c].status))
  }

  /** An answer goes on unchanged but for its stage, or is new. */
  ghost predicate AnswersGoOn(s: Hub, a: Action, n: Hub) {
    forall k | k in n.work.answers ::
      || (k in s.work.answers && n.work.answers[k] == s.work.answers[k].(stage := n.work.answers[k].stage))
      || (a == Result(AllowResult(k, n.work.answers[k].command, n.work.answers[k].status)) &&
          n.work.answers[k].status != Accepted)
  }

  lemma ResultAnswersGoOn(s: Hub, a: ResultStep)
    ensures AnswersGoOn(s, Result(a), DoResult(s, a))
  {
    hide MayAnswer, Starting, Unbound, Complete;
  }

  lemma ScopeLeavesAnswers(s: Hub, a: ScopeStep)
    ensures DoScope(s, a).work.answers == s.work.answers
  {
    hide ScopeAuthoritative, ScopeReported, RecordAck;
  }

  lemma StepAnswersGoOn(s: Hub, a: Action)
    ensures AnswersGoOn(s, a, Apply(s, a))
  {
    hide DoWorld, DoDispatch, DoResult, DoScope, DoHandshake, NeedsLock, UpsertV1, RegisterV2;
    match a {
      case World(x) => WorldLeavesAnswers(s, x);
      case Link(x) =>
      case Dispatching(x) => DispatchStaysConnected(s, x);
      case Result(x) => ResultAnswersGoOn(s, x);
      case Scoping(x) => ScopeLeavesAnswers(s, x);
      case Handshaking(x) => HandshakeStaysConnected(s, x);
    }
  }

  lemma WorldLeavesAnswers(s: Hub, a: WorldStep)
    ensures DoWorld(s, a).work == s.work
  {
  }

  lemma SaidStays(before: seq<Action>, a: Action, c: Id, status: CommandStatus)
    requires Said(before, c, status)
    ensures Said(before + [a], c, status)
  {
    var i :| 0 <= i < |before| && SaysSo(before[i], c, status);
    assert (before + [a])[i] == before[i];
  }

  lemma EndIsSaid(s: Hub, before: seq<Action>, a: Action, c: Id, status: CommandStatus)
    requires AllSaid(s, before) && Ends(s, a, c, status)
    ensures Said(before + [a], c, status)
  {
    var actions := before + [a];
    assert actions[|before|] == a;
    if a.Result? && a.result.StoreResult? {
      var k := a.result.socket;
      var i :| 0 <= i < |before| && before[i] == Result(AllowResult(k, c, status));
      assert SaysSo(actions[i], c, status);
    } else {
      assert SaysSo(actions[|before|], c, status);
    }
  }

  lemma StepSaid(s: Hub, before: seq<Action>, a: Action)
    requires AllSaid(s, before)
    ensures AllSaid(Apply(s, a), before + [a])
  {
    hide Apply, Ends, SaysSo;
    var n, actions := Apply(s, a), before + [a];
    StepAnswersGoOn(s, a);
    assert actions[|before|] == a;
    forall k | k in n.work.answers
      ensures exists i :: 0 <= i < |actions| &&
                actions[i] == Result(AllowResult(k, n.work.answers[k].command, n.work.answers[k].status))
    {
      if a != Result(AllowResult(k, n.work.answers[k].command, n.work.answers[k].status)) {
        var i :| 0 <= i < |before| &&
          before[i] == Result(AllowResult(k, s.work.answers[k].command, s.work.answers[k].status));
        assert actions[i] == before[i];
      }
    }
    forall c | c in n.t.commands && n.t.commands[c].status != Accepted
      ensures Said(actions, c, n.t.commands[c].status)
    {
      CommandGoesOn(s, a, c);
      if c in s.t.commands && s.t.commands[c].status == n.t.commands[c].status {
        SaidStays(before, a, c, n.t.commands[c].status);
      } else {
        EndIsSaid(s, before, a, c, n.t.commands[c].status);
      }
    }
  }

  /** In every run each terminal status is somebody's word: COMPLETED, REJECTED and the rest are what the device
      answered; CANCELLED and TIMED_OUT may also be its caller's, FAILED that of a lost frame or socket. */
  lemma {:induction false} EveryEndIsSaid(env: Env, generation: int, actions: seq<Action>)
    ensures AllSaid(Run(Init(env, generation), actions), actions)
  {
    hide Apply, AllSaid;
    if actions == [] {
      NothingSaid(env, generation);
    } else {
      var before, a := actions[..|actions| - 1], actions[|actions| - 1];
      EveryEndIsSaid(env, generation, before);
      StepSaid(Run(Init(env, generation), before), before, a);
      assert before + [a] == actions;
    }
  }

  lemma NothingSaid(env: Env, generation: int)
    ensures AllSaid(Init(env, generation), [])
  {
  }
}
