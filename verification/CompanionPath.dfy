/** One execution from the request to its result: when it is admitted, on which socket, how the result comes back,
    and what a socket that closes takes with it. */
module CompanionPath {
  import opened StageTypes
  import opened ExecutionWindow

  lemma RunOn(events: seq<Event>, e: Event)
    ensures Run(events + [e]) == Apply(Run(events), e)
  {
    assert (events + [e])[..|events|] == events;
  }

  // ---------------------------------------------------------------- connections

  /** A Companion keeps its connection until that one closes or another one says hello. */
  lemma ConnectionStays(c: Channel, e: Event, companion: string)
    requires companion in c.connections
    ensures var n := Apply(c, e);
            if e.Hello? && e.companion == companion && e.socket !in c.owners then
              companion in n.connections && n.connections[companion] == e.socket
            else if e == Close(c.connections[companion]) && e.socket in c.owners && e.socket !in c.closed &&
                    c.owners[e.socket] == companion then companion !in n.connections
            else companion in n.connections && n.connections[companion] == c.connections[companion]
  {
    hide Prune, Key, Blank, BoundTo;
  }

  lemma HelloConnects(c: Channel, k: SocketId, companion: string)
    requires k !in c.owners
    ensures var n := Apply(c, Hello(k, companion));
            && n.connections == c.connections[companion := k] && n.owners == c.owners[k := companion]
            && n.executions == c.executions && n.closed == c.closed
  {
  }

  // ---------------------------------------------------------------- admission

  /** In every run: a request with a blank id is refused; one that is still remembered is known; one that finds
      the window blocked is refused as busy; any other one is admitted on the Companion's current connection. */
  lemma AdmissionExactly(events: seq<Event>, companion: string, execution: string)
    ensures var c := Run(events);
            var key := Key(companion, execution);
            var connection := if companion in c.connections then Some(c.connections[companion]) else None;
            var blocked := |c.order| == WINDOW && c.order[0] in c.executions && c.executions[c.order[0]].result.None?;
            var n := Run(events + [Execute(companion, execution)]);
            if Blank(companion) || Blank(execution) then AdmissionOf(c, companion, execution).Invalid? && n == c
            else if key in c.executions then AdmissionOf(c, companion, execution).Known? && n == c
            else if blocked then AdmissionOf(c, companion, execution).Busy? && n == c
            else
              && AdmissionOf(c, companion, execution) == Admitted(connection)
              && key in n.executions && n.executions[key] == Execution(companion, execution, connection, None)
              && n.log == c.log + [key]
  {
    hide Run, Key, Blank, Prune;
    RunOn(events, Execute(companion, execution));
    BusyExactly(events, companion, execution);
    WindowIsRecent(events);
    if !AdmissionOf(Run(events), companion, execution).Admitted? { BusyKeepsAll(Run(events), companion, execution); }
  }

  // ---------------------------------------------------------------- the way back

  /** In every run: when an execution is admitted on socket k and its result comes back on k, looked up and
      finished, the record ends with that result. */
  lemma ResultComesBack(events: seq<Event>, companion: string, execution: string, k: SocketId, result: Id)
    requires AdmissionOf(Run(events), companion, execution) == Admitted(Some(k)) && k !in Run(events).looked
    ensures var n := Run(events + [Execute(companion, execution)] + [Look(k, execution)] + [Land(k, result)]);
            var key := Key(companion, execution);
            && key in n.executions && n.executions[key] == Execution(companion, execution, Some(k), Some(result))
            && k !in n.looked
  {
    hide Run, Key, Blank, Prune;
    RunOn(events, Execute(companion, execution));
    RunOn(events + [Execute(companion, execution)], Look(k, execution));
    RunOn(events + [Execute(companion, execution)] + [Look(k, execution)], Land(k, result));
    ClosedSocketsComplete(events, k);
  }

  /** Whatever the state: when socket k closes, exactly its unfinished records are taken to be failed, and each of
      them ends with the failure it is given, if no result of its own came first; and a socket closes only once. */
  lemma CloseFails(c: Channel, k: SocketId, key: string, failure: Id)
    requires k in c.owners && k !in c.closed
    ensures var n := Apply(c, Close(k));
            && n.executions == c.executions && n.closed == c.closed + {k} && Apply(n, Close(k)) == n
            && (ToFail(n, k, key) <==>
                key in c.executions && c.executions[key].socket == Some(k) && c.executions[key].result.None?)
            && (ToFail(n, k, key) ==>
                  var m := Apply(n, Interrupt(k, key, failure));
                  m.executions == c.executions[key := c.executions[key].(result := Some(failure))] &&
                      !ToFail(m, k, key))
  {
  }
}
