/** The Companion runtime channel as it is written: maps and the order list changed in place under one
    lock. Each method is proved to be one event of the execution window. */
module CompanionChannel {
  import opened StageTypes
  import opened ExecutionWindow

  class RuntimeChannel {
    var connections: map<string, SocketId>
    var executions: map<string, Execution>
    var executionOrder: seq<string>
    var owners: map<SocketId, string>
    var closed: set<SocketId>

    /** What a running close has collected, wire results under way, and the history of admissions. */
    ghost var closing: map<SocketId, set<string>>
    ghost var looked: map<SocketId, Looked>
    ghost var log: seq<string>
    ghost var captured: seq<Option<SocketId>>

    ghost function State(): Channel
      reads this
    {
      Channel(owners, connections, closed, executions, executionOrder, closing, looked, log, captured)
    }

    constructor ()
      ensures State() == EMPTY
    {
      connections, executions, executionOrder, owners, closed := map[], map[], [], map[], {};
      closing, looked, log, captured := map[], map[], [], [];
    }

    /** Registers a connection; the one it displaces is returned to be closed. */
    method AcceptHello(k: SocketId, companion: string) returns (displaced: Option<SocketId>)
      requires k !in owners
      modifies `owners, `connections
      ensures State() == Apply(old(State()), Hello(k, companion))
      ensures displaced == if companion in old(connections) then Some(old(connections)[companion]) else None
    {
      displaced := if companion in connections then Some(connections[companion]) else None;
      owners := owners[k := companion];
      connections := connections[companion := k];
    }

    method PruneExecutionsLocked()
      modifies `executions, `executionOrder
      ensures (executions, executionOrder) == Prune(old(executions), old(executionOrder))
    {
      while |executions| >= WINDOW && |executionOrder| > 0
        invariant Prune(executions, executionOrder) == Prune(old(executions), old(executionOrder))
        modifies `executions, `executionOrder
        decreases |executionOrder|
      {
        var key := executionOrder[0];
        if key in executions && executions[key].result.None? { return; }
        executions := executions - {key};
        executionOrder := executionOrder[1..];
      }
    }

    /** The critical section of an execution request. `Admitted` carries the socket captured for it. */
    method Admit(companion: string, execution: string) returns (a: Admission)
      modifies `executions, `executionOrder, `log, `captured
      ensures a == AdmissionOf(old(State()), companion, execution)
      ensures State() == Apply(old(State()), Execute(companion, execution))
      ensures a.Known? || a.Admitted? ==> Key(companion, execution) in executions
      ensures a.Admitted? ==>
                Key(companion, execution) !in old(executions) &&
                a.socket == (if companion in connections then Some(connections[companion]) else None) &&
                executions[Key(companion, execution)] == Execution(companion, execution, a.socket, None)
    {
      hide Key, Prune, Blank;
      if Blank(companion) || Blank(execution) { return Invalid; }
      var key := Key(companion, execution);
      if key in executions { return Known; }
      PruneExecutionsLocked();
      if |executions| >= WINDOW { return Busy; }
      var socket := if companion in connections then Some(connections[companion]) else None;
      executions := executions[key := Execution(companion, execution, socket, None)];
      executionOrder := executionOrder + [key];
      log, captured := log + [key], captured + [socket];
      a := Admitted(socket);
    }

    /** The first result of a record is kept; what is kept is returned. */
    method Finish(key: string, result: Id) returns (kept: Id)
      modifies `executions
      ensures State() == Apply(old(State()), End(key, result))
      ensures key in executions ==> executions[key].result == Some(kept)
    {
      if key !in executions { return result; }
      if executions[key].result.Some? { return executions[key].result.value; }
      executions := executions[key := executions[key].(result := Some(result))];
      kept := result;
    }

    /** The lookup of a wire result: only a record that is bound to this socket is found. */
    method LookUp(k: SocketId, execution: string) returns (found: Option<string>)
      requires k in owners && k !in looked
      modifies `looked
      ensures State() == Apply(old(State()), Look(k, execution))
      ensures found.Some? <==> k in looked
      ensures found.Some? ==> looked[k].key == found.value == Key(owners[k], execution)
    {
      var key := Key(owners[k], execution);
      if key !in executions || executions[key].socket != Some(k) { return None; }
      looked := looked[k := Looked(key, |log|)];
      found := Some(key);
    }

    /** The finish of a wire result that was looked up, after the lock was released in between. */
    method FinishFound(k: SocketId, key: string, result: Id) returns (kept: Id)
      requires k in looked && looked[k].key == key
      modifies `executions, `looked
      ensures State() == Apply(old(State()), Land(k, result))
      ensures key in executions ==> executions[key].result == Some(kept)
    {
      kept := Finish(key, result);
      looked := looked - {k};
    }

    /** The critical section of a close. Its pending records are failed one by one afterwards. */
    method RemoveConnection(k: SocketId) returns (pending: set<string>)
      requires k in owners && k !in closed
      modifies `connections, `closed, `closing
      ensures State() == Apply(old(State()), Close(k))
      ensures forall key :: key in pending <==>
                key in executions && executions[key].socket == Some(k) && executions[key].result.None?
      ensures connections == if owners[k] in old(connections) && old(connections)[owners[k]] == k
                             then old(connections) - {owners[k]} else old(connections)
    {
      var companion := owners[k];
      if companion in connections && connections[companion] == k { connections := connections - {companion}; }
      pending := set key | key in executions && executions[key].socket == Some(k) && executions[key].result.None?;
      closed := closed + {k};
      closing := closing[k := pending];
    }

    /** Fails one of the collected records, in a critical section of its own. */
    method FailOne(k: SocketId, key: string, failed: Id)
      requires k in closing && key in closing[k]
      modifies `executions, `closing
      ensures State() == Apply(old(State()), Interrupt(k, key, failed))
      ensures key in executions ==> executions[key].result.Some?
    {
      var _ := Finish(key, failed);
      closing := closing[k := closing[k] - {key}];
    }

    /** The rest of a close, when nothing else gets the lock in between. */
    method FailPending(k: SocketId, pending: set<string>, failed: Id)
      requires k in owners && k in closing && closing[k] == pending
      modifies `executions, `closing
      ensures k in closing && closing[k] == {}
      ensures forall key | key in pending && key in executions :: executions[key].result.Some?
      ensures RecordsKept(old(State()), State())
      ensures connections == old(connections) && closed == old(closed) && executionOrder == old(executionOrder)
    {
      var todo := pending;
      while exists key :: key in todo
        invariant k in closing && closing[k] == todo && todo <= pending
        invariant forall key | key in pending && key !in todo && key in executions :: executions[key].result.Some?
        invariant RecordsKept(old(State()), State())
        modifies `executions, `closing
        decreases |todo|
      {
        var key :| key in todo;
        FailOne(k, key, failed);
        todo := todo - {key};
      }
      if forall key :: key !in todo { assert todo == {}; }
    }
  }
}
