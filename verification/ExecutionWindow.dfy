/** The Companion execution window: a bounded first-in-first-out memory of executions, so that a repeated
    request finds its record instead of being sent again. Every event is one critical section. */
module ExecutionWindow {
  import opened StageTypes
  import opened Text

  const WINDOW := 1024

  type SocketId = int

  /** `result` is written when the execution completes. */
  datatype Execution = Execution(companion: string, execution: string, socket: Option<SocketId>, result: Option<Id>)

  /** A wire result between its lookup, when the log was `since` long, and its finish. */
  datatype Looked = Looked(key: string, since: nat)

  /** `closing` holds the records that a closed socket still has to fail, `looked` the wire results under
      way; `log` and `captured` are the history of all admissions, with the socket of each. */
  datatype Channel = Channel(
    owners: map<SocketId, string>, connections: map<string, SocketId>, closed: set<SocketId>,
    executions: map<string, Execution>, order: seq<string>, closing: map<SocketId, set<string>>,
    looked: map<SocketId, Looked>, log: seq<string>, captured: seq<Option<SocketId>>)

  const EMPTY := Channel(map[], map[], {}, map[], [], map[], map[], [], [])

  datatype Event =
    | Hello(socket: SocketId, companion: string)
    | Execute(companion: string, execution: string)
    | End(key: string, result: Id)
    | Look(socket: SocketId, execution: string)
    | Land(socket: SocketId, result: Id)
    | Close(socket: SocketId)
    | Interrupt(socket: SocketId, key: string, result: Id)

  const NUL: char := '\0'

  function Key(companion: string, execution: string): string {
    companion + [NUL] + execution
  }

  function FirstNul(s: string): nat {
    if s == "" || s[0] == NUL then 0 else 1 + FirstNul(s[1..])
  }

  lemma {:induction false} FirstNulOfKey(companion: string, execution: string)
    requires NUL !in companion
    ensures FirstNul(Key(companion, execution)) == |companion|
  {
    if companion != "" {
      assert Key(companion, execution)[1..] == Key(companion[1..], execution);
      FirstNulOfKey(companion[1..], execution);
    }
  }

  /** As long as Companion ids hold no NUL, different executions have different keys. */
  lemma KeyIsInjective(a: string, x: string, b: string, y: string)
    requires NUL !in a && NUL !in b && Key(a, x) == Key(b, y)
    ensures a == b && x == y
  {
    FirstNulOfKey(a, x);
    FirstNulOfKey(b, y);
    assert Key(a, x)[..|a|] == a && Key(b, y)[..|b|] == b;
    assert Key(a, x)[|a| + 1..] == x && Key(b, y)[|b| + 1..] == y;
  }

  /** An id that Execute refuses before it builds a key. */
  predicate Blank(id: string) {
    Trim(id) == ""
  }

  /** The id goes on after a NUL where the other one ends. */
  predicate GoesOn(id: string, other: string) {
    other + [NUL] <= id
  }

  ghost predicate ShareKey(a: string, b: string) {
    exists x, y :: !Blank(x) && !Blank(y) && Key(a, x) == Key(b, y)
  }

  lemma {:induction false} SolidIsNotBlank(s: string)
    requires s != "" && !IsSpace(s[|s| - 1])
    ensures !Blank(s)
  {
    if |s| > 1 && IsSpace(s[0]) { SolidIsNotBlank(s[1..]); }
  }

  lemma SameLengthSameId(a: string, x: string, b: string, y: string)
    requires Key(a, x) == Key(b, y) && |a| == |b|
    ensures a == b
  {
    assert Key(a, x)[..|a|] == a && Key(b, y)[..|a|] == b;
  }

  lemma LongerGoesOn(a: string, x: string, b: string, y: string)
    requires Key(a, x) == Key(b, y) && |a| < |b|
    ensures GoesOn(b, a)
  {
    var k := Key(a, x);
    assert k[..|a| + 1] == a + [NUL];
    assert Key(b, y)[..|b|] == b;
    assert b[..|a| + 1] == k[..|a| + 1];
  }

  lemma GoingOnShares(a: string, b: string)
    requires GoesOn(b, a)
    ensures ShareKey(a, b) && ShareKey(b, a)
  {
    var y := "c";
    var x := b[|a| + 1..] + [NUL] + y;
    SolidIsNotBlank(x);
    SolidIsNotBlank(y);
    assert b == a + [NUL] + b[|a| + 1..];
    assert Key(a, x) == Key(b, y);
  }

  /** Two Companions can share a key, for some executions that are not blank, if and only if the id of one
      is the id of the other followed by a NUL and any further text. */
  lemma KeysCollideExactly(a: string, b: string)
    requires a != b
    ensures ShareKey(a, b) <==> GoesOn(a, b) || GoesOn(b, a)
  {
    if ShareKey(a, b) {
      var x, y :| !Blank(x) && !Blank(y) && Key(a, x) == Key(b, y);
      if |a| == |b| { SameLengthSameId(a, x, b, y); }
      if |a| < |b| {
        LongerGoesOn(a, x, b, y);
      } else {
        LongerGoesOn(b, y, a, x);
      }
    }
    if GoesOn(b, a) { GoingOnShares(a, b); }
    if GoesOn(a, b) { GoingOnShares(b, a); }
  }

  /** Two requests that Execute accepts, for different Companions, with one key. */
  lemma KeyWithNulIsAmbiguous()
    ensures var a, x, b, y := "a" + [NUL] + "b", "c", "a", "b" + [NUL] + "c";
            !Blank(a) && !Blank(x) && !Blank(b) && !Blank(y) && a != b && Key(a, x) == Key(b, y)
  {
    SolidIsNotBlank("a" + [NUL] + "b");
    SolidIsNotBlank("c");
    SolidIsNotBlank("a");
    SolidIsNotBlank("b" + [NUL] + "c");
    assert |"a" + [NUL] + "b"| == 3;
  }

  // ---------------------------------------------------------------- the critical sections

  /** Forgets the oldest records while the window is full, but never past an unfinished one. */
  function Prune(executions: map<string, Execution>, order: seq<string>): (map<string, Execution>, seq<string>)
    decreases |order|
  {
    if |executions| < WINDOW || order == [] then (executions, order)
    else if order[0] in executions && executions[order[0]].result.None? then (executions, order)
    else Prune(executions - {order[0]}, order[1..])
  }

  datatype Admission = Invalid | Known | Busy | Admitted(socket: Option<SocketId>)

  function AdmissionOf(c: Channel, companion: string, execution: string): Admission {
    if Blank(companion) || Blank(execution) then Invalid
    else if Key(companion, execution) in c.executions then Known
    else if |Prune(c.executions, c.order).0| >= WINDOW then Busy
    else Admitted(if companion in c.connections then Some(c.connections[companion]) else None)
  }

  function DoExecute(c: Channel, companion: string, execution: string): Channel {
    var key := Key(companion, execution);
    var (executions, order) := Prune(c.executions, c.order);
    match AdmissionOf(c, companion, execution)
    case Invalid => c
    case Known => c
    case Busy => c.(executions := executions, order := order)
    case Admitted(socket) =>
      c.(executions := executions[key := Execution(companion, execution, socket, None)], order := order + [key],
         log := c.log + [key], captured := c.captured + [socket])
  }

  function DoFinish(c: Channel, key: string, result: Id): Channel {
    if key in c.executions && c.executions[key].result.None?
    then c.(executions := c.executions[key := c.executions[key].(result := Some(result))])
    else c
  }

  /** A result on the wire is looked up, and goes on only for a record that is bound to this very socket. */
  function DoLook(c: Channel, k: SocketId, execution: string): Channel {
    if k !in c.owners || k in c.looked then c
    else
      var key := Key(c.owners[k], execution);
      if key in c.executions && c.executions[key].socket == Some(k)
      then c.(looked := c.looked[k := Looked(key, |c.log|)]) else c
  }

  /** Then it finishes the record that has this key by now. */
  function DoLand(c: Channel, k: SocketId, result: Id): Channel {
    if k in c.looked then DoFinish(c, c.looked[k].key, result).(looked := c.looked - {k}) else c
  }

  function DoHello(c: Channel, k: SocketId, companion: string): Channel {
    if k in c.owners then c
    else c.(owners := c.owners[k := companion], connections := c.connections[companion := k])
  }

  function BoundTo(executions: map<string, Execution>, k: SocketId): set<string> {
    set key | key in executions && executions[key].socket == Some(k) && executions[key].result.None?
  }

  predicate ToFail(c: Channel, k: SocketId, key: string) {
    k in c.closing && key in c.closing[k]
  }

  /** A socket closes once: it is forgotten, and its unfinished records are collected. */
  function DoClose(c: Channel, k: SocketId): Channel {
    if k !in c.owners || k in c.closed then c
    else
      var companion := c.owners[k];
      c.(closed := c.closed + {k},
         connections := if companion in c.connections && c.connections[companion] == k
                        then c.connections - {companion} else c.connections,
         closing := c.closing[k := BoundTo(c.executions, k)])
  }

  function DoInterrupt(c: Channel, k: SocketId, key: string, result: Id): Channel {
    if ToFail(c, k, key) then DoFinish(c, key, result).(closing := c.closing[k := c.closing[k] - {key}]) else c
  }

  function Apply(c: Channel, e: Event): Channel {
    match e
    case Hello(k, companion) => DoHello(c, k, companion)
    case Execute(companion, execution) => DoExecute(c, companion, execution)
    case End(key, result) => DoFinish(c, key, result)
    case Look(k, execution) => DoLook(c, k, execution)
    case Land(k, result) => DoLand(c, k, result)
    case Close(k) => DoClose(c, k)
    case Interrupt(k, key, result) => DoInterrupt(c, k, key, result)
  }

  function Run(events: seq<Event>): Channel {
    if events == [] then EMPTY else Apply(Run(events[..|events| - 1]), events[|events| - 1])
  }

  // ---------------------------------------------------------------- what is in the window

  function Recent(log: seq<string>): seq<string> {
    if |log| <= WINDOW then log else log[|log| - WINDOW..]
  }

  /** Between two admissions of one key lie at least 1024 admissions. */
  ghost predicate Spaced(log: seq<string>) {
    forall i, j | 0 <= i < j < |log| && log[i] == log[j] :: WINDOW < j - i
  }

  ghost predicate Windowed(c: Channel) {
    && c.order == Recent(c.log) && Spaced(c.log)
    && (forall key :: key in c.executions <==> key in c.order)
    && |c.executions| == |c.order|
  }

  lemma SpacedIsDistinct(log: seq<string>)
    requires Spaced(log)
    ensures NoRepeats(Recent(log))
  {
    var start := if |log| <= WINDOW then 0 else |log| - WINDOW;
    forall i, j | 0 <= i < j < |Recent(log)| ensures Recent(log)[i] != Recent(log)[j] {
      assert Recent(log)[i] == log[start + i] && Recent(log)[j] == log[start + j];
    }
  }

  lemma MapShrinks(m: map<string, Execution>, key: string)
    requires key in m
    ensures |m - {key}| == |m| - 1
  {
    assert (m - {key}).Keys == m.Keys - {key};
  }

  lemma WindowIsBounded(c: Channel)
    requires Windowed(c)
    ensures |c.executions| == |c.order| <= WINDOW && (c.order != [] ==> c.order[0] in c.executions)
  {
  }

  /** A windowed channel loses at most its oldest record, and only when that one is finished. */
  lemma PruneOne(c: Channel)
    requires Windowed(c)
    ensures |c.order| == WINDOW ==> c.order[0] in c.executions
    ensures var (executions, order) := Prune(c.executions, c.order);
            if |c.order| < WINDOW || c.executions[c.order[0]].result.None?
            then executions == c.executions && order == c.order
            else executions == c.executions - {c.order[0]} && order == c.order[1..] && |executions| == WINDOW - 1
  {
    hide Windowed;
    WindowIsBounded(c);
    if |c.order| == WINDOW { MapShrinks(c.executions, c.order[0]); }
  }

  lemma RecentGrows(log: seq<string>, key: string)
    ensures Recent(log + [key]) == if |log| < WINDOW then log + [key] else Recent(log)[1..] + [key]
  {
  }

  lemma SpacedGrows(log: seq<string>, key: string)
    requires Spaced(log) && key !in Recent(log)
    ensures Spaced(log + [key])
  {
    var start := if |log| <= WINDOW then 0 else |log| - WINDOW;
    forall i | start <= i < |log| ensures log[i] != key {
      assert Recent(log)[i - start] in Recent(log);
    }
  }

  lemma MapGrows(m: map<string, Execution>, key: string, e: Execution)
    requires key !in m
    ensures |m[key := e]| == |m| + 1
  {
    assert m[key := e].Keys == m.Keys + {key};
  }

  /** Adding a key to a window with room. */
  lemma AdmitWithRoom(c: Channel, key: string, e: Execution)
    requires Windowed(c) && key !in c.executions && |c.order| < WINDOW
    ensures Windowed(c.(executions := c.executions[key := e], order := c.order + [key], log := c.log + [key],
                       captured := c.captured + [e.socket]))
  {
    hide Spaced;
    RecentGrows(c.log, key);
    SpacedGrows(c.log, key);
    MapGrows(c.executions, key, e);
    assert c.order == c.log;
    assert forall x :: x in c.order + [key] <==> x in c.order || x == key;
  }

  /** The window without its oldest record and with a new one has the keys of its list. */
  lemma SameMembers(m: map<string, Execution>, rest: map<string, Execution>, order: seq<string>, key: string,
                    e: Execution)
    requires order != [] && forall x :: x in m <==> x in order
    requires rest == m - {order[0]} && forall x :: x in order[1..] <==> x in order && x != order[0]
    ensures forall x :: x in rest[key := e] <==> x in order[1..] + [key]
  {
  }

  /** Adding a key to a full window that has lost its oldest record. */
  lemma AdmitWhenFull(c: Channel, executions: map<string, Execution>, key: string, e: Execution)
    requires Windowed(c) && key !in c.executions && |c.order| == WINDOW
    requires executions == c.executions - {c.order[0]} && |executions| == WINDOW - 1
    ensures Windowed(c.(executions := executions[key := e], order := c.order[1..] + [key], log := c.log + [key],
                       captured := c.captured + [e.socket]))
  {
    hide Spaced, Recent;
    var rest := c.order[1..];
    assert rest + [key] == Recent(c.log + [key]) by { FullStaysRecent(c, key); }
    SpacedGrows(c.log, key);
    SpacedIsDistinct(c.log);
    MapGrows(executions, key, e);
    HeadAndTail(c.order);
    SameMembers(c.executions, executions, c.order, key, e);
  }

  lemma FullStaysRecent(c: Channel, key: string)
    requires Windowed(c) && |c.order| == WINDOW
    ensures c.order[1..] + [key] == Recent(c.log + [key])
  {
    hide Spaced;
    RecentGrows(c.log, key);
  }

  lemma AdmitKeepsWindow(c: Channel, companion: string, execution: string)
    requires Windowed(c) && AdmissionOf(c, companion, execution).Admitted?
    ensures Windowed(DoExecute(c, companion, execution))
  {
    hide Key, Prune, Windowed, Blank;
    var key := Key(companion, execution);
    PruneOne(c);
    var (executions, order) := Prune(c.executions, c.order);
    WindowIsBounded(c);
    var e := Execution(companion, execution, AdmissionOf(c, companion, execution).socket, None);
    if |c.order| < WINDOW { AdmitWithRoom(c, key, e); } else { AdmitWhenFull(c, executions, key, e); }
  }

  lemma HeadAndTail(order: seq<string>)
    requires order != [] && NoRepeats(order)
    ensures forall x :: x in order[1..] <==> x in order && x != order[0]
  {
    assert order == [order[0]] + order[1..];
    forall x | x in order[1..] ensures x != order[0] {
      var i :| 0 <= i < |order| - 1 && order[1..][i] == x;
      assert order[i + 1] == x;
    }
  }

  lemma BusyKeepsAll(c: Channel, companion: string, execution: string)
    requires Windowed(c) && !AdmissionOf(c, companion, execution).Admitted?
    ensures DoExecute(c, companion, execution) == c
  {
    hide Windowed, Key, Prune, Blank;
    PruneOne(c);
    WindowIsBounded(c);
  }

  lemma SameKeysKeepWindow(c: Channel, n: Channel)
    requires Windowed(c) && n.executions.Keys == c.executions.Keys && |n.executions| == |c.executions|
    requires n.order == c.order && n.log == c.log
    ensures Windowed(n)
  {
    hide Spaced, Recent;
  }

  lemma FinishSameKeys(c: Channel, key: string, result: Id)
    ensures var n := DoFinish(c, key, result);
            n.executions.Keys == c.executions.Keys && n.order == c.order && n.log == c.log
  {
  }

  lemma SameSize(m: map<string, Execution>, n: map<string, Execution>)
    requires m.Keys == n.Keys
    ensures |m| == |n|
  {
    assert |m| == |m.Keys| && |n| == |n.Keys|;
  }

  lemma SameKeys(c: Channel, e: Event)
    requires !e.Execute?
    ensures Apply(c, e).executions.Keys == c.executions.Keys && Apply(c, e).order == c.order && Apply(c, e).log == c.log
    ensures |Apply(c, e).executions| == |c.executions|
  {
    hide DoFinish, Key, BoundTo;
    match e {
      case End(key, result) => FinishSameKeys(c, key, result);
      case Land(k, result) => if k in c.looked { FinishSameKeys(c, c.looked[k].key, result); }
      case Interrupt(_, key, result) => FinishSameKeys(c, key, result);
      case _ =>
    }
    SameSize(Apply(c, e).executions, c.executions);
  }

  lemma StepKeepsWindow(c: Channel, e: Event)
    requires Windowed(c)
    ensures Windowed(Apply(c, e))
  {
    hide Windowed, Key, DoExecute, DoFinish, DoLook, DoLand, DoHello, DoClose, DoInterrupt;
    match e {
      case Execute(companion, execution) =>
        if AdmissionOf(c, companion, execution).Admitted? {
          AdmitKeepsWindow(c, companion, execution);
        } else {
          BusyKeepsAll(c, companion, execution);
        }
      case _ =>
        SameKeys(c, e);
        SameKeysKeepWindow(c, Apply(c, e));
    }
  }

  /** After any events the window holds exactly the last 1024 admitted keys, without repeats, and a key
      is admitted again only after at least 1024 other admissions. */
  lemma {:induction false} WindowIsRecent(events: seq<Event>)
    ensures Windowed(Run(events)) && NoRepeats(Run(events).order) && |Run(events).executions| <= WINDOW
  {
    if events != [] {
      WindowIsRecent(events[..|events| - 1]);
      StepKeepsWindow(Run(events[..|events| - 1]), events[|events| - 1]);
    }
    SpacedIsDistinct(Run(events).log);
  }

  /** The admissions between two admissions of one key hold 1024 different other keys. */
  lemma ReadmissionIsLate(events: seq<Event>, i: nat, j: nat)
    requires i < j < |Run(events).log| && Run(events).log[i] == Run(events).log[j]
    ensures WINDOW < j - i
    ensures var between := Run(events).log[j - WINDOW..j]; NoRepeats(between) && Run(events).log[j] !in between
  {
    hide Run;
    WindowIsRecent(events);
    var log := Run(events).log;
    var between := log[j - WINDOW..j];
    forall a, b | 0 <= a < b < |between| ensures between[a] != between[b] {
      assert between[a] == log[j - WINDOW + a] && between[b] == log[j - WINDOW + b];
    }
    forall a | 0 <= a < |between| ensures between[a] != log[j] {
      assert between[a] == log[j - WINDOW + a];
    }
  }

  /** A valid request is refused as busy exactly when its key is unknown and the window is full behind an
      unfinished oldest record. */
  lemma BusyExactly(events: seq<Event>, companion: string, execution: string)
    ensures var c := Run(events);
            AdmissionOf(c, companion, execution) == Busy <==>
              !Blank(companion) && !Blank(execution) && Key(companion, execution) !in c.executions &&
              |c.order| == WINDOW && c.order[0] in c.executions &&
              c.executions[c.order[0]].result.None?
  {
    hide Run, Key, Prune, Blank;
    WindowIsRecent(events);
    PruneOne(Run(events));
  }

  // ---------------------------------------------------------------- what happens to a record

  /** Records keep what they were admitted with, a result is written once, and only finished records
      are forgotten. */
  ghost predicate RecordsKept(c: Channel, n: Channel) {
    && (forall key | key in c.executions && c.executions[key].result.None? :: key in n.executions)
    && (forall key | key in c.executions && key in n.executions ::
          n.executions[key] == c.executions[key] ||
          (c.executions[key].result.None? &&
           n.executions[key] == c.executions[key].(result := n.executions[key].result)))
  }

  lemma ExecuteKeepsRecords(c: Channel, companion: string, execution: string)
    requires Windowed(c)
    ensures RecordsKept(c, DoExecute(c, companion, execution))
  {
    hide Windowed, Key, Prune, Blank;
    PruneOne(c);
    WindowIsBounded(c);
  }

  lemma FinishKeepsRecords(c: Channel, key: string, result: Id)
    ensures RecordsKept(c, DoFinish(c, key, result))
  {
  }

  lemma SameRecords(c: Channel)
    ensures RecordsKept(c, c)
  {
  }

  lemma StepKeepsRecords(c: Channel, e: Event)
    requires Windowed(c)
    ensures RecordsKept(c, Apply(c, e))
  {
    hide Windowed, Key, DoExecute, DoFinish;
    match e {
      case Execute(companion, execution) => ExecuteKeepsRecords(c, companion, execution);
      case End(key, result) => FinishKeepsRecords(c, key, result);
      case Land(k, result) =>
        SameRecords(c);
        if k in c.looked { FinishKeepsRecords(c, c.looked[k].key, result); }
      case Interrupt(_, key, result) =>
        SameRecords(c);
        FinishKeepsRecords(c, key, result);
      case _ =>
    }
  }

  /** In any run an unfinished record stays until it gets a result, and a result never changes while
      the record is retained. */
  lemma RecordsAreKept(events: seq<Event>, e: Event)
    ensures RecordsKept(Run(events), Run(events + [e]))
  {
    WindowIsRecent(events);
    StepKeepsRecords(Run(events), e);
    assert (events + [e])[..|events|] == events;
  }

  /** A result is written by an event that names its record: a wire result by its lookup, any other one by
      the key. */
  lemma ResultsHaveASource(c: Channel, e: Event, key: string)
    requires key in c.executions && c.executions[key].result.None?
    requires key in Apply(c, e).executions && Apply(c, e).executions[key].result.Some?
    ensures match e
            case Land(k, result) => k in c.looked && key == c.looked[k].key &&
                Apply(c, e).executions[key].result == Some(result)
            case End(other, result) => other == key && Apply(c, e).executions[key].result == Some(result)
            case Interrupt(k, other, result) => other == key && ToFail(c, k, key) &&
                Apply(c, e).executions[key].result == Some(result)
            case _ => false
  {
    hide Key, DoExecute, BoundTo;
    if e.Execute? { ExecuteFinishesNothing(c, e.companion, e.execution, key); }
  }

  lemma ExecuteFinishesNothing(c: Channel, companion: string, execution: string, key: string)
    requires key in c.executions && c.executions[key].result.None?
    ensures var n := DoExecute(c, companion, execution); key in n.executions ==> n.executions[key].result.None?
  {
    hide Key, Blank, Prune;
    PruneKeeps(c.executions, c.order);
  }

  lemma {:induction false} PruneKeeps(executions: map<string, Execution>, order: seq<string>)
    ensures forall key | key in Prune(executions, order).0 ::
              key in executions && Prune(executions, order).0[key] == executions[key]
    decreases |order|
  {
    if |executions| >= WINDOW && order != [] && !(order[0] in executions && executions[order[0]].result.None?) {
      PruneKeeps(executions - {order[0]}, order[1..]);
    }
  }

  // ---------------------------------------------------------------- wire results

  /** The last admission of this key. */
  ghost predicate LastAt(log: seq<string>, key: string, i: nat) {
    i < |log| && log[i] == key && forall j | i < j < |log| :: log[j] != key
  }

  ghost predicate CapturedLast(c: Channel, key: string, socket: Option<SocketId>) {
    exists i: nat :: LastAt(c.log, key, i) && i < |c.captured| && c.captured[i] == socket
  }

  /** Every record holds the socket of the last admission of its key. A record that is looked up is bound to
      the socket that looked, as long as its key is not admitted again. */
  ghost predicate Placed(c: Channel) {
    && |c.captured| == |c.log|
    && (forall key | key in c.executions :: CapturedLast(c, key, c.executions[key].socket))
    && (forall k | k in c.looked :: c.looked[k].since <= |c.log|)
    && (forall k | k in c.looked && c.looked[k].key in c.executions ::
          c.looked[k].key in c.log[c.looked[k].since..] || c.executions[c.looked[k].key].socket == Some(k))
  }

  lemma LastStays(log: seq<string>, more: string, key: string, i: nat)
    requires LastAt(log, key, i) && more != key
    ensures LastAt(log + [more], key, i)
  {
  }

  lemma AdmitCaptures(c: Channel, companion: string, execution: string)
    requires Placed(c) && AdmissionOf(c, companion, execution).Admitted?
    ensures var n := DoExecute(c, companion, execution);
            forall key | key in n.executions :: CapturedLast(n, key, n.executions[key].socket)
  {
    hide Key, Blank, LastAt;
    PruneKeeps(c.executions, c.order);
    var n := DoExecute(c, companion, execution);
    var admitted := Key(companion, execution);
    forall key | key in n.executions ensures CapturedLast(n, key, n.executions[key].socket) {
      if key == admitted {
        NewestIsLast(c.log, key);
        assert n.captured[|c.log|] == n.executions[key].socket;
      } else {
        assert CapturedLast(c, key, c.executions[key].socket);
        var i: nat :| LastAt(c.log, key, i) && i < |c.captured| && c.captured[i] == c.executions[key].socket;
        LastStays(c.log, admitted, key, i);
        assert n.captured[i] == c.captured[i];
      }
    }
  }

  lemma NewestIsLast(log: seq<string>, key: string)
    ensures LastAt(log + [key], key, |log|)
  {
  }

  lemma AdmitKeepsLookups(c: Channel, companion: string, execution: string, k: SocketId)
    requires Placed(c) && AdmissionOf(c, companion, execution).Admitted? && k in c.looked
    requires c.looked[k].key in DoExecute(c, companion, execution).executions
    ensures var n := DoExecute(c, companion, execution);
            var l := c.looked[k];
            l.since <= |n.log| && (l.key in n.log[l.since..] || n.executions[l.key].socket == Some(k))
  {
    hide Key, Blank, CapturedLast;
    PruneKeeps(c.executions, c.order);
    var l := c.looked[k];
    assert (c.log + [Key(companion, execution)])[l.since..] == c.log[l.since..] + [Key(companion, execution)];
  }

  lemma AdmitKeepsPlaces(c: Channel, companion: string, execution: string)
    requires Placed(c)
    ensures Placed(DoExecute(c, companion, execution))
  {
    hide Key, Blank, CapturedLast;
    if AdmissionOf(c, companion, execution).Admitted? {
      AdmitCaptures(c, companion, execution);
      forall k | k in c.looked && c.looked[k].key in DoExecute(c, companion, execution).executions
        ensures var n := DoExecute(c, companion, execution);
                c.looked[k].since <= |n.log| &&
                (c.looked[k].key in n.log[c.looked[k].since..] || n.executions[c.looked[k].key].socket == Some(k))
      {
        AdmitKeepsLookups(c, companion, execution, k);
      }
    } else {
      PruneKeeps(c.executions, c.order);
      assert DoExecute(c, companion, execution).log == c.log;
      RefusalKeepsPlaces(c, DoExecute(c, companion, execution));
    }
  }

  /** Forgetting or finishing records keeps their places. */
  lemma RefusalKeepsPlaces(c: Channel, n: Channel)
    requires Placed(c) && n.log == c.log && n.captured == c.captured
    requires forall k | k in n.looked :: k in c.looked && n.looked[k] == c.looked[k]
    requires forall key | key in n.executions ::
               key in c.executions && n.executions[key].socket == c.executions[key].socket
    ensures Placed(n)
  {
    hide LastAt;
    forall key | key in n.executions ensures CapturedLast(n, key, n.executions[key].socket) {
      assert CapturedLast(c, key, c.executions[key].socket);
    }
  }

  lemma LookKeepsPlaces(c: Channel, k: SocketId, execution: string)
    requires Placed(c)
    ensures Placed(DoLook(c, k, execution))
  {
    hide Key, LastAt;
    var n := DoLook(c, k, execution);
    forall key | key in n.executions ensures CapturedLast(n, key, n.executions[key].socket) {
      assert CapturedLast(c, key, c.executions[key].socket);
    }
  }

  lemma StepKeepsPlaces(c: Channel, e: Event)
    requires Placed(c)
    ensures Placed(Apply(c, e))
  {
    hide Placed, DoExecute, DoLook, Key, BoundTo;
    match e {
      case Execute(companion, execution) => AdmitKeepsPlaces(c, companion, execution);
      case Look(k, execution) => LookKeepsPlaces(c, k, execution);
      case _ => RefusalKeepsPlaces(c, Apply(c, e));
    }
  }

  lemma {:induction false} RunKeepsPlaces(events: seq<Event>)
    ensures Placed(Run(events))
  {
    hide Apply;
    if events != [] {
      RunKeepsPlaces(events[..|events| - 1]);
      StepKeepsPlaces(Run(events[..|events| - 1]), events[|events| - 1]);
    }
  }

  /** In any run, the record that a wire result is about to finish is bound to the socket it came from if and
      only if the last admission of its key since the lookup, if there was one, captured that socket. */
  lemma WireResultsCount(events: seq<Event>, k: SocketId)
    requires k in Run(events).looked && Run(events).looked[k].key in Run(events).executions
    ensures var c := Run(events);
            var l := c.looked[k];
            c.executions[l.key].socket == Some(k) <==>
              forall i: nat | l.since <= i && LastAt(c.log, l.key, i) :: CapturedLast(c, l.key, Some(k))
  {
    hide Run, LastAt;
    RunKeepsPlaces(events);
    var c := Run(events);
    var l := c.looked[k];
    assert CapturedLast(c, l.key, c.executions[l.key].socket);
    var i: nat :| LastAt(c.log, l.key, i) && i < |c.captured| && c.captured[i] == c.executions[l.key].socket;
    forall j: nat | LastAt(c.log, l.key, j) ensures j == i { OneLast(c.log, l.key, i, j); }
    LastIsLater(c.log, l.key, l.since, i);
  }

  lemma OneLast(log: seq<string>, key: string, i: nat, j: nat)
    requires LastAt(log, key, i) && LastAt(log, key, j)
    ensures i == j
  {
  }

  lemma LastIsLater(log: seq<string>, key: string, since: nat, i: nat)
    requires since <= |log| && LastAt(log, key, i)
    ensures since <= i <==> key in log[since..]
  {
    if key in log[since..] {
      var j :| 0 <= j < |log[since..]| && log[since..][j] == key;
      assert log[since + j] == key;
    }
    if since <= i { assert log[since..][i - since] == key; }
  }

  // ---------------------------------------------------------------- closed sockets

  ghost predicate SocketsWired(c: Channel) {
    && (forall companion | companion in c.connections ::
          c.connections[companion] in c.owners && c.owners[c.connections[companion]] == companion &&
          c.connections[companion] !in c.closed)
    && (forall k | k in c.closed :: k in c.owners)
    && (forall key | key in c.executions && c.executions[key].socket.Some? ::
        c.executions[key].socket.value in c.owners)
    && (forall key | key in c.executions && c.executions[key].socket.Some? && c.executions[key].result.None? &&
                     c.executions[key].socket.value in c.closed ::
          ToFail(c, c.executions[key].socket.value, key))
  }

  lemma CloseKeepsSockets(c: Channel, k: SocketId)
    requires SocketsWired(c)
    ensures SocketsWired(DoClose(c, k))
  {
  }

  lemma FinishKeepsSockets(c: Channel, key: string, result: Id)
    requires SocketsWired(c)
    ensures SocketsWired(DoFinish(c, key, result))
  {
  }

  lemma InterruptKeepsSockets(c: Channel, k: SocketId, key: string, result: Id)
    requires SocketsWired(c)
    ensures SocketsWired(DoInterrupt(c, k, key, result))
  {
  }

  lemma ExecuteKeepsSockets(c: Channel, companion: string, execution: string)
    requires SocketsWired(c)
    ensures SocketsWired(DoExecute(c, companion, execution))
  {
    hide Key, Blank, Prune;
    PruneKeeps(c.executions, c.order);
  }

  lemma StepKeepsSockets(c: Channel, e: Event)
    requires SocketsWired(c)
    ensures SocketsWired(Apply(c, e))
  {
    hide Key, DoExecute, DoClose, DoFinish, DoInterrupt;
    match e {
      case Execute(companion, execution) => ExecuteKeepsSockets(c, companion, execution);
      case Close(k) => CloseKeepsSockets(c, k);
      case End(key, result) => FinishKeepsSockets(c, key, result);
      case Look(k, execution) =>
      case Land(k, result) => if k in c.looked { FinishKeepsSockets(c, c.looked[k].key, result); }
      case Interrupt(k, key, result) => InterruptKeepsSockets(c, k, key, result);
      case Hello(_, _) =>
    }
  }

  /** In any run, every unfinished record of a closed socket is one that this socket's close is about
      to fail; so once the close has worked off its list, all records bound to it are complete. */
  lemma {:induction false} ClosedSocketsComplete(events: seq<Event>, k: SocketId)
    ensures SocketsWired(Run(events))
    ensures var c := Run(events);
            k in c.closed && (forall key :: !ToFail(c, k, key)) ==>
              forall key | key in c.executions && c.executions[key].socket == Some(k) :: c.executions[key].result.Some?
  {
    hide Apply;
    if events != [] {
      ClosedSocketsComplete(events[..|events| - 1], k);
      StepKeepsSockets(Run(events[..|events| - 1]), events[|events| - 1]);
    }
  }
}
