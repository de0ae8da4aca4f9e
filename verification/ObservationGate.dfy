/** The one-use gate for live lighting observations, and the comparison it ends in. */
module ObservationGate {
  import opened StageTypes

  const MAX_TTL := 30

  datatype Scope = Scope(project: Id, session: Id, snapshot: Id, cue: Id, epoch: int, generation: int, revision: int)

  datatype Observation = Observation(project: Id, session: Id, snapshot: Id, epoch: int, generation: int,
                                     challenge: Id, known: bool, levels: map<int, int>)

  datatype Status = Match | Drift | Unknown | Refused

  datatype Comparison = Comparison(status: Status, differing: seq<int>, missing: seq<int>)

  const REFUSED := Comparison(Refused, [], [])

  // ---------------------------------------------------------------- comparison

  predicate WholeScope(s: Scope) {
    s.project != NO_ID && s.session != NO_ID && s.snapshot != NO_ID && 0 < s.epoch && 0 < s.generation &&
        s.revision != 0
  }

  /** The report belongs to the scope, and answers a challenge. */
  predicate ReportFor(s: Scope, o: Observation, challenge: Id) {
    && s.project == o.project && s.session == o.session && s.snapshot == o.snapshot
    && s.epoch == o.epoch && s.generation == o.generation
    && challenge != NO_ID && challenge == o.challenge
  }

  predicate Channels(desired: map<int, int>) {
    |desired| != 0 && forall c | c in desired :: 1 <= c <= MAX_CHANNELS
  }

  predicate Comparable(s: Scope, desired: map<int, int>, o: Observation, challenge: Id, granted: bool) {
    granted && WholeScope(s) && ReportFor(s, o, challenge) && Channels(desired)
  }

  predicate Missing(desired: map<int, int>, o: Observation, c: int) {
    c in desired && c !in o.levels
  }

  predicate Differing(desired: map<int, int>, o: Observation, c: int) {
    c in desired && c in o.levels && o.levels[c] != desired[c]
  }

  /** What a comparison answers. */
  ghost function StatusOf(s: Scope, desired: map<int, int>, o: Observation, challenge: Id, granted: bool): Status {
    if !Comparable(s, desired, o, challenge, granted) then Refused
    else if !o.known || (exists c :: Missing(desired, o, c)) then Unknown
    else if exists c :: Differing(desired, o, c) then Drift
    else Match
  }

  /** MATCH is answered exactly when every desired channel was reported with the desired level in an
      admissible report. */
  lemma MatchExactly(s: Scope, desired: map<int, int>, o: Observation, challenge: Id, granted: bool)
    ensures StatusOf(s, desired, o, challenge, granted) == Match <==>
            Comparable(s, desired, o, challenge, granted) && o.known &&
            forall c | c in desired :: c in o.levels && o.levels[c] == desired[c]
  {
    if Comparable(s, desired, o, challenge, granted) && o.known {
      if c :| c in desired && !(c in o.levels && o.levels[c] == desired[c]) {
        assert Missing(desired, o, c) || Differing(desired, o, c);
      }
    }
  }

  /** A report is refused unless the reader is granted, scope and report name the same Project, session,
      snapshot, epoch and generation, all of them given, the challenge is the one that was asked with, and the
      desired channels exist. */
  lemma RefusedExactly(s: Scope, desired: map<int, int>, o: Observation, challenge: Id, granted: bool)
    ensures StatusOf(s, desired, o, challenge, granted) == Refused <==>
            !(granted && s.project == o.project != NO_ID && s.session == o.session != NO_ID &&
              s.snapshot == o.snapshot != NO_ID && 0 < s.epoch == o.epoch && 0 < s.generation == o.generation &&
              s.revision != 0 && challenge == o.challenge != NO_ID &&
              desired != map[] && forall c | c in desired :: 1 <= c <= 12)
  {
    assert |desired| == 0 <==> desired == map[];
  }

  /** An admissible report says DRIFT if it is complete and some channel differs, UNKNOWN if it is not. */
  lemma DriftExactly(s: Scope, desired: map<int, int>, o: Observation, challenge: Id, granted: bool)
    ensures var status := StatusOf(s, desired, o, challenge, granted);
            && (status == Drift <==>
                Comparable(s, desired, o, challenge, granted) && o.known &&
                    (forall c | c in desired :: c in o.levels) &&
                exists c :: c in desired && c in o.levels && o.levels[c] != desired[c])
            && (status == Unknown <==>
                Comparable(s, desired, o, challenge, granted) &&
                (!o.known || exists c :: c in desired && c !in o.levels))
  {
    assert forall c :: Missing(desired, o, c) <==> c in desired && c !in o.levels;
    assert forall c :: Differing(desired, o, c) <==> c in desired && c in o.levels && o.levels[c] != desired[c];
  }

  predicate Ascending(s: seq<int>) {
    forall i, j | 0 <= i < j < |s| :: s[i] < s[j]
  }

  /** Puts one more channel in its place. */
  function Insert(s: seq<int>, c: int): seq<int> {
    if s == [] || c < s[0] then [c] + s else [s[0]] + Insert(s[1..], c)
  }

  lemma SmallestFirst(x: int, s: seq<int>)
    requires Ascending(s) && forall y | y in s :: x < y
    ensures Ascending([x] + s)
  {
    forall i, j | 0 <= i < j < |[x] + s| ensures ([x] + s)[i] < ([x] + s)[j] {
      assert ([x] + s)[j] == s[j - 1] && s[j - 1] in s;
    }
  }

  lemma TailIsLarger(s: seq<int>)
    requires s != [] && Ascending(s)
    ensures Ascending(s[1..]) && forall y | y in s[1..] :: s[0] < y
  {
    forall y | y in s[1..] ensures s[0] < y {
      var i :| 0 <= i < |s[1..]| && s[1..][i] == y;
      assert s[i + 1] == y;
    }
  }

  lemma {:induction false} InsertKeeps(s: seq<int>, c: int)
    requires Ascending(s) && c !in s
    ensures Ascending(Insert(s, c)) && forall x :: x in Insert(s, c) <==> x in s || x == c
  {
    if s != [] {
      TailIsLarger(s);
      assert s == [s[0]] + s[1..] && s[0] in s;
      if c < s[0] {
        SmallestFirst(c, s);
      } else {
        InsertKeeps(s[1..], c);
        SmallestFirst(s[0], Insert(s[1..], c));
      }
    }
  }

  method Sort(s: seq<int>) returns (r: seq<int>)
    requires NoRepeats(s)
    ensures Ascending(r) && forall x :: x in r <==> x in s
  {
    r := [];
    for i := 0 to |s|
      invariant Ascending(r) && forall x :: x in r <==> x in s[..i]
    {
      assert s[..i + 1] == s[..i] + [s[i]];
      InsertKeeps(r, s[i]);
      r := Insert(r, s[i]);
    }
    assert s[..|s|] == s;
  }

  /** The desired channels that were not reported, and those reported with another level, in any order. */
  method Sift(desired: map<int, int>, o: Observation) returns (missing: seq<int>, differing: seq<int>)
    ensures forall c :: c in missing <==> Missing(desired, o, c)
    ensures forall c :: c in differing <==> Differing(desired, o, c)
    ensures NoRepeats(missing) && NoRepeats(differing)
  {
    missing, differing := [], [];
    var todo: set<int> := desired.Keys;
    while exists c :: c in todo
      invariant todo <= desired.Keys
      invariant forall c :: c in missing <==> Missing(desired, o, c) && c !in todo
      invariant forall c :: c in differing <==> Differing(desired, o, c) && c !in todo
      invariant NoRepeats(missing) && NoRepeats(differing)
      decreases |todo|
    {
      var c :| c in todo;
      if c !in o.levels {
        missing := missing + [c];
      } else if o.levels[c] != desired[c] {
        differing := differing + [c];
      }
      todo := todo - {c};
    }
  }

  method CompareLiveLighting(s: Scope, desired: map<int, int>, o: Observation, challenge: Id, granted: bool)
    returns (r: Comparison)
    ensures r.status == StatusOf(s, desired, o, challenge, granted)
    ensures Ascending(r.differing) && Ascending(r.missing)
    ensures Comparable(s, desired, o, challenge, granted) && o.known ==>
              (forall c :: c in r.differing <==> Differing(desired, o, c)) &&
              (forall c :: c in r.missing <==> Missing(desired, o, c))
  {
    if !granted || !WholeScope(s) || !ReportFor(s, o, challenge) { return REFUSED; }
    if |desired| == 0 || exists c | c in desired :: c < 1 || MAX_CHANNELS < c { return REFUSED; }
    if !o.known { return Comparison(Unknown, [], []); }
    var missing, differing := Sift(desired, o);
    missing := Sort(missing);
    differing := Sort(differing);
    if missing != [] {
      assert missing[0] in missing;
      return Comparison(Unknown, differing, missing);
    }
    if differing != [] {
      assert differing[0] in differing;
      return Comparison(Drift, differing, []);
    }
    r := Comparison(Match, [], []);
  }

  // ---------------------------------------------------------------- the gate

  datatype Waiting = Waiting(scope: Scope, challenge: Id, expires: int)

  /** `challenge` of a Begin is the token drawn; `now` is the clock at that moment. */
  datatype Event =
    | Begin(device: Id, scope: Scope, ttl: int, challenge: Id, now: int)
    | Cancel(device: Id, challenge: Id)
    | Complete(device: Id, current: Scope, desired: map<int, int>, observed: Observation, granted: bool, now: int)

  type Gate = map<Id, Waiting>

  predicate Opens(e: Event) {
    e.Begin? && e.device != NO_ID && WholeScope(e.scope) && 0 < e.ttl <= MAX_TTL
  }

  /** The challenge is used up, whatever comes of it. */
  predicate Consumes(e: Event, device: Id, challenge: Id) {
    || (Opens(e) && e.device == device)
    || (e.Cancel? && e.device == device && e.challenge == challenge && challenge != NO_ID)
    || (e.Complete? && e.device == device && e.observed.challenge == challenge)
  }

  function Apply(g: Gate, e: Event): Gate {
    match e
    case Begin(device, scope, ttl, challenge, now) =>
      if Opens(e) then g[device := Waiting(scope, challenge, now + ttl)] else g
    case Cancel(device, challenge) =>
      if challenge != NO_ID && device in g && g[device].challenge == challenge then g - {device} else g
    case Complete(device, current, desired, observed, granted, now) =>
      if device != NO_ID && device in g && g[device].challenge == observed.challenge then g - {device} else g
  }

  function Run(events: seq<Event>): Gate {
    if events == [] then map[] else Apply(Run(events[..|events| - 1]), events[|events| - 1])
  }

  /** What Complete answers when the gate stands like this. */
  ghost function Answer(g: Gate, e: Event): Status
    requires e.Complete?
  {
    if e.device == NO_ID || e.device !in g || g[e.device].challenge != e.observed.challenge then Refused
    else if g[e.device].expires <= e.now || g[e.device].scope != e.current then Refused
    else StatusOf(e.current, e.desired, e.observed, g[e.device].challenge, e.granted)
  }

  /** Event b is the Begin that a pending entry stems from, and nothing has used its challenge since. */
  ghost predicate Origin(events: seq<Event>, b: int, device: Id, p: Waiting) {
    && 0 <= b < |events| && Opens(events[b]) && events[b].device == device
    && p == Waiting(events[b].scope, events[b].challenge, events[b].now + events[b].ttl)
    && forall k | b < k < |events| :: !Consumes(events[k], device, p.challenge)
  }

  lemma {:induction false} PendingHasOrigin(events: seq<Event>, device: Id) returns (b: int)
    requires device in Run(events)
    ensures Origin(events, b, device, Run(events)[device])
  {
    var before, e := events[..|events| - 1], events[|events| - 1];
    if Opens(e) && e.device == device {
      b := |events| - 1;
    } else {
      b := PendingHasOrigin(before, device);
      forall k | b < k < |events| ensures !Consumes(events[k], device, Run(events)[device].challenge) {
        if k < |events| - 1 { assert events[k] == before[k]; }
      }
    }
  }

  /** An answer other than a refusal is given only to the latest Begin of the device, uncancelled and
      not answered before, ahead of its deadline and in the scope it was begun for; and it is MATCH
      exactly when every desired channel was reported with the desired level. */
  lemma AnswersAreFresh(events: seq<Event>, e: Event) returns (b: int)
    requires e.Complete? && Answer(Run(events), e) != Refused
    ensures 0 <= b < |events| && Opens(events[b])
    ensures Origin(events, b, e.device, Waiting(e.current, e.observed.challenge, events[b].now + events[b].ttl))
    ensures e.now < events[b].now + events[b].ttl && events[b].ttl <= MAX_TTL
    ensures Answer(Run(events), e) == Match <==>
              e.observed.known &&
              forall c | c in e.desired :: c in e.observed.levels && e.observed.levels[c] == e.desired[c]
  {
    b := PendingHasOrigin(events, e.device);
    MatchExactly(e.current, e.desired, e.observed, e.observed.challenge, e.granted);
  }

  /** A Begin stays pending until its challenge is used. */
  lemma {:induction false} BegunStaysPending(events: seq<Event>, b: int)
    requires 0 <= b < |events| && Opens(events[b])
    requires forall k | b < k < |events| :: !Consumes(events[k], events[b].device, events[b].challenge)
    ensures events[b].device in Run(events)
    ensures Run(events)[events[b].device] ==
            Waiting(events[b].scope, events[b].challenge, events[b].now + events[b].ttl)
  {
    if b < |events| - 1 {
      var before := events[..|events| - 1];
      assert before[b] == events[b];
      BegunStaysPending(before, b);
    }
  }

  /** And it is answered: a report that comes in time, in the scope and with the challenge of the latest
      unused Begin, gets the status that the comparison gives it. */
  lemma FreshIsAnswered(events: seq<Event>, b: int, e: Event)
    requires 0 <= b < |events| && Opens(events[b])
    requires forall k | b < k < |events| :: !Consumes(events[k], events[b].device, events[b].challenge)
    requires e.Complete? && e.device == events[b].device && e.observed.challenge == events[b].challenge
    requires e.current == events[b].scope && e.now < events[b].now + events[b].ttl
    ensures Answer(Run(events), e) == StatusOf(e.current, e.desired, e.observed, e.observed.challenge, e.granted)
  {
    BegunStaysPending(events, b);
  }

  ghost predicate FreshChallenges(events: seq<Event>) {
    forall i, j | 0 <= i < j < |events| && Opens(events[i]) && Opens(events[j]) ::
      events[i].challenge != events[j].challenge
  }

  /** A challenge that was answered is nowhere pending afterwards. */
  lemma UsedUp(events: seq<Event>, i: nat, j: nat, device: Id)
    requires FreshChallenges(events) && i < j <= |events| && events[i].Complete?
    requires Answer(Run(events[..i]), events[i]) != Refused && device in Run(events[..j])
    ensures Run(events[..j])[device].challenge != events[i].observed.challenge
  {
    hide Run, Answer;
    var a := AnswersAreFresh(events[..i], events[i]);
    var b := PendingHasOrigin(events[..j], device);
    assert events[..i][a] == events[a] && events[..j][b] == events[b] && events[..j][i] == events[i];
    assert Consumes(events[i], events[a].device, events[i].observed.challenge);
  }

  /** As challenges are drawn fresh, each of them is answered with anything but a refusal at most once. */
  lemma AnsweredOnce(events: seq<Event>, i: nat, j: nat)
    requires FreshChallenges(events) && i < j < |events| && events[i].Complete? && events[j].Complete?
    requires events[i].observed.challenge == events[j].observed.challenge
    requires Answer(Run(events[..i]), events[i]) != Refused
    ensures Answer(Run(events[..j]), events[j]) == Refused
  {
    if events[j].device in Run(events[..j]) { UsedUp(events, i, j, events[j].device); }
  }

  // ---------------------------------------------------------------- the gate as an object

  class LiveLightingObservationGate {
    var pending: Gate

    constructor ()
      ensures pending == map[]
    {
      pending := map[];
    }

    /** `token` is the random challenge that was drawn. */
    method BeginObservation(device: Id, scope: Scope, ttl: int, token: Id, now: int) returns (challenge: Option<Id>)
      modifies this
      ensures pending == Apply(old(pending), Begin(device, scope, ttl, token, now))
      ensures challenge == if Opens(Begin(device, scope, ttl, token, now)) then Some(token) else None
      ensures challenge.Some? <==>
                device != NO_ID && 0 < ttl <= 30 && scope.project != NO_ID && scope.session != NO_ID &&
                scope.snapshot != NO_ID && 0 < scope.epoch && 0 < scope.generation && scope.revision != 0
    {
      if device == NO_ID || !WholeScope(scope) || ttl <= 0 || ttl > MAX_TTL { return None; }
      pending := pending[device := Waiting(scope, token, now + ttl)];
      challenge := Some(token);
    }

    method CancelObservation(device: Id, challenge: Id)
      modifies this
      ensures pending == Apply(old(pending), Cancel(device, challenge))
    {
      if challenge == NO_ID { return; }
      if device in pending && pending[device].challenge == challenge { pending := pending - {device}; }
    }

    method CompleteObservation(device: Id, current: Scope, desired: map<int, int>, observed: Observation, granted: bool,
                               now: int) returns (r: Comparison)
      modifies this
      ensures pending == Apply(old(pending), Complete(device, current, desired, observed, granted, now))
      ensures r.status == Answer(old(pending), Complete(device, current, desired, observed, granted, now))
    {
      if device == NO_ID || device !in pending { return REFUSED; }
      var p := pending[device];
      if p.challenge != observed.challenge { return REFUSED; }
      pending := pending - {device};
      if now >= p.expires || p.scope != current { return REFUSED; }
      r := CompareLiveLighting(current, desired, observed, p.challenge, granted);
    }
  }
}
