/** A run in which a wire result finishes a record of another socket. Between the lookup and the finish of
    the result the lock is free; 1024 other executions push the looked-up record out of the window, and its
    key is admitted again for the socket that has replaced the first one. */
module LateWireResult {
  import opened StageTypes
  import opened ExecutionWindow

  const KEY: string := Key("a", "x")

  function Name(n: nat): (s: string)
    ensures |s| == n + 1 && s[|s| - 1] == 'c'
  {
    if n == 0 then "c" else "c" + Name(n - 1)
  }

  function Names(n: nat): (s: seq<string>)
    ensures |s| == n
    ensures forall i | 0 <= i < n :: s[i] == Key("b", Name(i + 1))
  {
    if n == 0 then [] else Names(n - 1) + [Key("b", Name(n))]
  }

  /** The first socket of Companion a answers an execution that has just timed out. */
  const START: seq<Event> := [Hello(1, "a"), Execute("a", "x"), Look(1, "x"), End(KEY, 7)]

  /** Executions for a Companion that is offline. */
  function Filler(n: nat): seq<Event> {
    if n == 0 then [] else Filler(n - 1) + [Execute("b", Name(n)), End(Key("b", Name(n)), 7)]
  }

  const LATE_RUN: seq<Event> := START + Filler(WINDOW) + [Hello(2, "a"), Execute("a", "x")]

  /** The result of the first socket is still under way; every record is finished. */
  ghost predicate Filled(c: Channel, n: nat) {
    && c.owners == map[1 := "a"] && c.connections == map["a" := 1]
    && c.looked == map[1 := Looked(KEY, 1)] && c.log == [KEY] + Names(n)
    && forall key | key in c.executions :: c.executions[key].result.Some?
  }

  lemma RunOn(events: seq<Event>, e: Event)
    ensures Run(events + [e]) == Apply(Run(events), e)
  {
    assert (events + [e])[..|events|] == events;
  }

  lemma IdsAreNotBlank(n: nat)
    ensures !Blank("a") && !Blank("x") && !Blank("b") && !Blank(Name(n))
  {
    SolidIsNotBlank("a");
    SolidIsNotBlank("x");
    SolidIsNotBlank("b");
    SolidIsNotBlank(Name(n));
  }

  const ASKED: Channel := Channel(map[1 := "a"], map["a" := 1], {}, map[KEY := Execution("a", "x", Some(1), None)],
                                  [KEY], map[], map[], [KEY], [Some(1)])

  lemma Asked()
    ensures Run([START[0], START[1]]) == ASKED
  {
    hide Blank, Key;
    IdsAreNotBlank(0);
    RunOn([], START[0]);
    RunOn([START[0]], START[1]);
    assert [] + [START[0]] == [START[0]] && [START[0]] + [START[1]] == [START[0], START[1]];
  }

  lemma Answered()
    ensures Filled(Apply(Apply(ASKED, START[2]), START[3]), 0)
  {
    hide Key;
  }

  lemma Started()
    ensures Filled(Run(START), 0)
  {
    hide Run, Apply, Filled, Key, DoLook, DoFinish;
    Asked();
    RunOn([START[0], START[1]], START[2]);
    RunOn([START[0], START[1], START[2]], START[3]);
    assert [START[0], START[1]] + [START[2]] == [START[0], START[1], START[2]];
    assert [START[0], START[1], START[2]] + [START[3]] == START;
    Answered();
  }

  lemma KeyParts(a: string, b: string)
    requires a != ""
    ensures |Key(a, b)| == |a| + 1 + |b| && Key(a, b)[0] == a[0]
  {
  }

  /** A new name is in no log of shorter ones. */
  lemma NewName(n: nat)
    ensures Key("b", Name(n + 1)) !in [KEY] + Names(n)
  {
    hide Key, Name, Names;
    var log := [KEY] + Names(n);
    KeyParts("b", Name(n + 1));
    KeyParts("a", "x");
    forall i | 0 <= i < |log| ensures log[i] != Key("b", Name(n + 1)) {
      if i > 0 {
        assert log[i] == Names(n)[i - 1] == Key("b", Name(i));
        KeyParts("b", Name(i));
      }
    }
  }

  lemma UnknownUnlessLogged(events: seq<Event>, key: string)
    requires key !in Recent(Run(events).log)
    ensures key !in Run(events).executions
  {
    hide Run;
    WindowIsRecent(events);
  }

  /** An unknown execution is admitted when all records are finished. */
  lemma FinishedAdmit(events: seq<Event>, companion: string, execution: string)
    requires !Blank(companion) && !Blank(execution) && Key(companion, execution) !in Run(events).executions
    requires forall key | key in Run(events).executions :: Run(events).executions[key].result.Some?
    ensures AdmissionOf(Run(events), companion, execution).Admitted?
  {
    hide Run, Key, Blank, Prune;
    BusyExactly(events, companion, execution);
  }

  lemma FillOne(events: seq<Event>, n: nat)
    requires Filled(Run(events), n)
    ensures Filled(Run(events + [Execute("b", Name(n + 1)), End(Key("b", Name(n + 1)), 7)]), n + 1)
  {
    hide Run, Key, Blank, Prune, Names, Name;
    var execute, end := Execute("b", Name(n + 1)), End(Key("b", Name(n + 1)), 7);
    RunOn(events, execute);
    RunOn(events + [execute], end);
    assert events + [execute] + [end] == events + [execute, end];
    var c := Run(events);
    NewName(n);
    NotRecent(c.log, Key("b", Name(n + 1)));
    UnknownUnlessLogged(events, Key("b", Name(n + 1)));
    IdsAreNotBlank(n + 1);
    FinishedAdmit(events, "b", Name(n + 1));
    PruneKeeps(c.executions, c.order);
    NextName(n);
  }

  lemma NextName(n: nat)
    ensures Names(n + 1) == Names(n) + [Key("b", Name(n + 1))]
    ensures [KEY] + Names(n + 1) == [KEY] + Names(n) + [Key("b", Name(n + 1))]
  {
  }

  lemma NotRecent(log: seq<string>, key: string)
    requires key !in log
    ensures key !in Recent(log)
  {
  }

  lemma {:induction false} FillMany(n: nat)
    ensures Filled(Run(START + Filler(n)), n)
  {
    hide Run, Filled, Key;
    if n == 0 {
      Started();
      assert START + Filler(0) == START;
    } else {
      FillMany(n - 1);
      FillOne(START + Filler(n - 1), n - 1);
      assert START + Filler(n) == START + Filler(n - 1) + [Execute("b", Name(n)), End(Key("b", Name(n)), 7)];
    }
  }

  lemma FirstIsForgotten()
    ensures KEY !in Recent([KEY] + Names(WINDOW))
  {
    hide Name, Names;
    var log := [KEY] + Names(WINDOW);
    assert Recent(log) == Names(WINDOW);
    forall i | 0 <= i < WINDOW ensures Names(WINDOW)[i] != KEY {
      assert Names(WINDOW)[i][0] == 'b' && KEY[0] == 'a';
    }
  }

  lemma Readmitted(events: seq<Event>)
    requires Filled(Run(events), WINDOW)
    ensures var c := Run(events + [Hello(2, "a"), Execute("a", "x")]);
            && KEY in c.executions && c.executions[KEY] == Execution("a", "x", Some(2), None)
            && c.looked == map[1 := Looked(KEY, 1)]
  {
    hide Run, Key, Blank, Prune, Names;
    var hello, execute := Hello(2, "a"), Execute("a", "x");
    RunOn(events, hello);
    RunOn(events + [hello], execute);
    assert events + [hello] + [execute] == events + [hello, execute];
    FirstIsForgotten();
    UnknownUnlessLogged(events, KEY);
    IdsAreNotBlank(0);
    FinishedAdmit(events + [hello], "a", "x");
  }

  /** The record belongs to the second socket and is unfinished; the result of the first socket, still
      under way, finishes it. */
  ghost predicate EndsAnother(c: Channel) {
    && KEY in c.executions && c.executions[KEY] == Execution("a", "x", Some(2), None)
    && var n := DoLand(c, 1, 9);
    && KEY in n.executions && n.executions[KEY] == Execution("a", "x", Some(2), Some(9))
  }

  lemma LateResultEndsAnotherRecord()
    ensures EndsAnother(Run(LATE_RUN))
  {
    hide Run, Filled, Key;
    FillMany(WINDOW);
    Readmitted(START + Filler(WINDOW));
    assert LATE_RUN == START + Filler(WINDOW) + [Hello(2, "a"), Execute("a", "x")];
  }
}
