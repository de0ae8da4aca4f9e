/** A whole show: repeated plain GO over a valid cue list executes every enabled cue exactly once. */
module CueShow {
  import opened StageTypes
  import opened CueGraph
  import opened CueForest

  ghost predicate Nested(cues: seq<Cue>, id: string) {
    exists i :: 0 <= i < |cues| && id in LinksOf(cues[i])
  }

  ghost predicate TopLevel(cues: seq<Cue>, k: int) {
    0 <= k < |cues| && cues[k].enabled && !Nested(cues, cues[k].id)
  }

  // ---------------------------------------------------------------- selecting the next cue

  datatype GoRequest = GoRequest(expected: Option<string>, requested: Option<string>)

  const PLAIN_GO := GoRequest(None, None)

  datatype Selection =
    | Selected(index: int)
    | CurrentCueMismatch
    | CueDisabled
    | CueNotInSnapshot
    | CueGroupInvalid
    | CurrentCueNotInSnapshot
    | NoNextCue

  function IndexOf(cues: seq<Cue>, id: string): (k: int)
    ensures 0 <= k <= |cues|
    ensures k < |cues| ==> cues[k].id == id
    ensures forall i | 0 <= i < k :: cues[i].id != id
  {
    if cues == [] then 0 else if cues[0].id == id then 0 else 1 + IndexOf(cues[1..], id)
  }

  ghost function NextTop(cues: seq<Cue>, start: nat): (k: int)
    requires start <= |cues|
    ensures start <= k <= |cues|
    ensures k < |cues| ==> TopLevel(cues, k)
    ensures forall i | start <= i < k :: !TopLevel(cues, i)
    decreases |cues| - start
  {
    if start == |cues| || TopLevel(cues, start) then start else NextTop(cues, start + 1)
  }

  /** What a GO selects, as the session and the request ask for it. */
  ghost function Select(cues: seq<Cue>, current: Option<string>, request: GoRequest): Selection {
    var now := if current.Some? then current.value else "";
    if request.expected.Some? && request.expected.value != now then CurrentCueMismatch
    else if request.requested.Some? then
      var k := IndexOf(cues, request.requested.value);
      if k == |cues| then CueNotInSnapshot else if !cues[k].enabled then CueDisabled else Selected(k)
    else if !Resolvable(cues) then CueGroupInvalid
    else if now != "" && IndexOf(cues, now) == |cues| then CurrentCueNotInSnapshot
    else
      var k := NextTop(cues, if now == "" then 0 else IndexOf(cues, now) + 1);
      if k < |cues| then Selected(k) else NoNextCue
  }

  // ---------------------------------------------------------------- what a selection means

  ghost predicate Present(cues: seq<Cue>, id: string) {
    exists i :: 0 <= i < |cues| && cues[i].id == id
  }

  /** The request names the cue that the session stands on, or does not care. */
  predicate Expected(current: Option<string>, request: GoRequest) {
    request.expected.None? || request.expected == current || (current.None? && request.expected == Some(""))
  }

  /** A cue that a GO without a requested cue may select from here: enabled, linked by no cue, and behind
      the current one. */
  ghost predicate MayFollow(cues: seq<Cue>, current: Option<string>, k: int) {
    && 0 <= k < |cues| && cues[k].enabled
    && (forall i | 0 <= i < |cues| :: cues[k].id !in LinksOf(cues[i]))
    && (current.Some? && current.value != "" ==> exists i :: 0 <= i < k && cues[i].id == current.value)
  }

  /** What a GO answers, by the list and the request: a requested cue is selected if and only if it is in the
      list, enabled, and the expectation holds; otherwise the first cue that may follow. */
  ghost predicate Answers(cues: seq<Cue>, current: Option<string>, request: GoRequest, s: Selection) {
    match s
    case CurrentCueMismatch => !Expected(current, request)
    case CueNotInSnapshot =>
      Expected(current, request) && request.requested.Some? && !Present(cues, request.requested.value)
    case CueDisabled =>
      Expected(current, request) && request.requested.Some? &&
      exists i :: 0 <= i < |cues| && cues[i].id == request.requested.value && !cues[i].enabled
    case CueGroupInvalid => Expected(current, request) && request.requested.None? && !Resolvable(cues)
    case CurrentCueNotInSnapshot =>
      Expected(current, request) && request.requested.None? && Resolvable(cues) &&
      current.Some? && current.value != "" && !Present(cues, current.value)
    case NoNextCue =>
      Expected(current, request) && request.requested.None? && Resolvable(cues) &&
      (current.Some? && current.value != "" ==> Present(cues, current.value)) &&
      forall k :: !MayFollow(cues, current, k)
    case Selected(k) =>
      && Expected(current, request) && 0 <= k < |cues| && cues[k].enabled
      && (request.requested.Some? ==> cues[k].id == request.requested.value)
      && (request.requested.None? ==>
            Resolvable(cues) && MayFollow(cues, current, k) && forall i | i < k :: !MayFollow(cues, current, i))
  }

  lemma SelectAnswers(cues: seq<Cue>, current: Option<string>, request: GoRequest)
    requires UniqueIds(cues)
    ensures Answers(cues, current, request, Select(cues, current, request))
  {
    hide Resolvable;
    if request.requested.Some? {
      var k := IndexOf(cues, request.requested.value);
    } else if current.Some? && current.value != "" {
      var k := IndexOf(cues, current.value);
      MayFollowFrom(cues, current, k + 1);
    } else {
      MayFollowFrom(cues, current, 0);
    }
  }

  lemma MayFollowFrom(cues: seq<Cue>, current: Option<string>, start: int)
    requires UniqueIds(cues)
    requires if current.Some? && current.value != "" then start == IndexOf(cues, current.value) + 1 else start == 0
    ensures forall k :: MayFollow(cues, current, k) <==> start <= k && TopLevel(cues, k)
  {
  }

  /** Exactly one answer is right. */
  lemma OneAnswer(cues: seq<Cue>, current: Option<string>, request: GoRequest, s: Selection, t: Selection)
    requires UniqueIds(cues) && Answers(cues, current, request, s) && Answers(cues, current, request, t)
    ensures s == t
  {
    hide Resolvable, LinksOf;
  }

  // ---------------------------------------------------------------- groups of different roots

  lemma StepIsNested(cues: seq<Cue>, p: seq<string>)
    requires UniqueIds(cues) && Walk(GraphOf(cues), p) && 1 < |p|
    ensures Nested(cues, p[|p| - 1])
    ensures exists i :: 0 <= i < |cues| && cues[i].id == p[|p| - 2] && p[|p| - 1] in LinksOf(cues[i])
  {
    GraphLooksUp(cues);
    var a, x := p[|p| - 2], p[|p| - 1];
    assert x in Links(GraphOf(cues), a);
    var i :| 0 <= i < |cues| && cues[i].id == a;
    assert x in LinksOf(cues[i]);
  }

  /** Two walks from top-level cues to the same cue start at the same cue. */
  lemma {:induction false} OneRoot(cues: seq<Cue>, p: seq<string>, q: seq<string>)
    requires UniqueIds(cues) && SingleParent(cues) && Walk(GraphOf(cues), p) && Walk(GraphOf(cues), q)
    requires !Nested(cues, p[0]) && !Nested(cues, q[0]) && p[|p| - 1] == q[|q| - 1]
    ensures p[0] == q[0]
  {
    if |p| > 1 && |q| > 1 {
      StepIsNested(cues, p);
      StepIsNested(cues, q);
      OneRoot(cues, p[..|p| - 1], q[..|q| - 1]);
    } else if |p| > 1 {
      StepIsNested(cues, p);
    } else if |q| > 1 {
      StepIsNested(cues, q);
    }
  }

  lemma {:induction false} PigeonHole(p: seq<string>, s: set<string>)
    requires NoRepeats(p) && forall i | 0 <= i < |p| :: p[i] in s
    ensures |p| <= |s|
  {
    if p != [] {
      var last := p[|p| - 1];
      PigeonHole(p[..|p| - 1], s - {last});
    }
  }

  /** A walk from an enabled nested cue can start one parent earlier. */
  lemma Climb(cues: seq<Cue>, p: seq<string>) returns (parent: string)
    requires UniqueIds(cues) && Valid(cues) && Walk(GraphOf(cues), p) && Nested(cues, p[0])
    requires forall x | x in p :: x in GraphOf(cues)
    ensures parent in GraphOf(cues) && GraphOf(cues)[parent].enabled && Walk(GraphOf(cues), [parent] + p)
  {
    GraphLooksUp(cues);
    var i :| 0 <= i < |cues| && p[0] in LinksOf(cues[i]);
    parent := cues[i].id;
    assert p[0] in Links(GraphOf(cues), parent);
  }

  lemma WalksAreShort(cues: seq<Cue>, p: seq<string>)
    requires Valid(cues) && Walk(GraphOf(cues), p) && forall x | x in p :: x in GraphOf(cues)
    ensures |p| <= |GraphOf(cues).Keys|
  {
    PigeonHole(p, GraphOf(cues).Keys);
  }

  /** Every enabled cue is reached from an enabled top-level cue. */
  lemma {:induction false} TopAncestor(cues: seq<Cue>, p: seq<string>) returns (k: int)
    requires UniqueIds(cues) && Valid(cues) && Walk(GraphOf(cues), p)
    requires forall x | x in p :: x in GraphOf(cues)
    requires p[0] in GraphOf(cues) && GraphOf(cues)[p[0]].enabled
    ensures TopLevel(cues, k) && Reaches(GraphOf(cues), cues[k].id, p[|p| - 1])
    decreases |GraphOf(cues).Keys| - |p|
  {
    hide Valid, UniqueIds;
    GraphLooksUp(cues);
    WalksAreShort(cues, p);
    if Nested(cues, p[0]) {
      var parent := Climb(cues, p);
      var longer := [parent] + p;
      assert forall x | x in longer :: x in GraphOf(cues);
      WalksAreShort(cues, longer);
      k := TopAncestor(cues, longer);
    } else {
      k :| 0 <= k < |cues| && cues[k].id == p[0];
    }
  }

  // ---------------------------------------------------------------- the run of a show

  function Position(cues: seq<Cue>, current: Option<string>): int {
    if current.None? || current.value == "" then 0
    else if IndexOf(cues, current.value) == |cues| then |cues| else IndexOf(cues, current.value) + 1
  }

  /** The cues executed by repeating plain GO until it answers anything but a cue. */
  ghost function Show(cues: seq<Cue>, current: Option<string>): seq<string>
    requires UniqueIds(cues) && forall i | 0 <= i < |cues| :: cues[i].id != ""
    decreases |cues| - Position(cues, current)
  {
    match Select(cues, current, PLAIN_GO)
    case Selected(k) =>
      SelectMovesOn(cues, current, k);
      Resolve(GraphOf(cues), cues[k].id).value + Show(cues, Some(cues[k].id))
    case _ => []
  }

  lemma SelectMovesOn(cues: seq<Cue>, current: Option<string>, k: int)
    requires UniqueIds(cues) && (forall i | 0 <= i < |cues| :: cues[i].id != "")
    requires Select(cues, current, PLAIN_GO) == Selected(k)
    ensures Position(cues, current) <= k < |cues| && Position(cues, Some(cues[k].id)) == k + 1
    ensures Resolvable(cues) && k == NextTop(cues, Position(cues, current))
  {
    hide Resolvable, TopLevel;
    var j := IndexOf(cues, cues[k].id);
  }

  ghost predicate ReachedFrom(cues: seq<Cue>, start: int, x: string) {
    exists k :: start <= k && TopLevel(cues, k) && Reaches(GraphOf(cues), cues[k].id, x)
  }

  lemma {:induction false} ShowFrom(cues: seq<Cue>, current: Option<string>)
    requires UniqueIds(cues) && Valid(cues) && forall i | 0 <= i < |cues| :: cues[i].id != ""
    ensures NoRepeats(Show(cues, current))
    ensures forall x :: x in Show(cues, current) <==> ReachedFrom(cues, Position(cues, current), x)
    decreases |cues| - Position(cues, current)
  {
    ValidationAgrees(cues);
    var s := Position(cues, current);
    if Select(cues, current, PLAIN_GO).Selected? {
      var k := Select(cues, current, PLAIN_GO).index;
      SelectMovesOn(cues, current, k);
      ShowFrom(cues, Some(cues[k].id));
      ShowJoins(cues, s, k, Show(cues, Some(cues[k].id)));
    }
  }

  lemma ShowJoins(cues: seq<Cue>, s: int, k: int, rest: seq<string>)
    requires UniqueIds(cues) && SingleParent(cues) && Resolvable(cues)
    requires 0 <= s <= k < |cues| && k == NextTop(cues, s)
    requires NoRepeats(rest) && forall x :: x in rest <==> ReachedFrom(cues, k + 1, x)
    ensures var run := Resolve(GraphOf(cues), cues[k].id).value + rest;
            NoRepeats(run) && forall x :: x in run <==> ReachedFrom(cues, s, x)
  {
    hide Resolve, UniqueIds, SingleParent, Resolvable, TopLevel;
    var g := GraphOf(cues);
    assert Resolve(g, cues[k].id).Some? by { ResolvesAt(cues, k); }
    ResolveLists(g, cues[k].id);
    var group := Resolve(g, cues[k].id).value;
    GroupIsNew(cues, k, group, rest);
    forall x ensures x in group + rest <==> ReachedFrom(cues, s, x) { JoinsAt(cues, s, k, x); }
  }

  lemma ResolvesAt(cues: seq<Cue>, k: int)
    requires Resolvable(cues) && 0 <= k < |cues|
    ensures cues[k].id in GraphOf(cues) && Resolve(GraphOf(cues), cues[k].id).Some?
  {
  }

  lemma JoinsAt(cues: seq<Cue>, s: int, k: int, x: string)
    requires 0 <= s <= k < |cues| && k == NextTop(cues, s)
    ensures ReachedFrom(cues, s, x) <==> Reaches(GraphOf(cues), cues[k].id, x) || ReachedFrom(cues, k + 1, x)
  {
    hide Reaches;
    if ReachedFrom(cues, s, x) {
      var m :| s <= m && TopLevel(cues, m) && Reaches(GraphOf(cues), cues[m].id, x);
      assert m == k || k + 1 <= m;
    }
    assert TopLevel(cues, k);
  }

  lemma GroupIsNew(cues: seq<Cue>, k: int, group: seq<string>, rest: seq<string>)
    requires UniqueIds(cues) && SingleParent(cues) && TopLevel(cues, k)
    requires NoRepeats(group) && forall x :: x in group <==> Reaches(GraphOf(cues), cues[k].id, x)
    requires NoRepeats(rest) && forall x :: x in rest <==> ReachedFrom(cues, k + 1, x)
    ensures NoRepeats(group + rest)
  {
    hide Reaches, UniqueIds, SingleParent;
    forall x | x in group ensures x !in rest {
      if x in rest {
        var m :| k + 1 <= m && TopLevel(cues, m) && Reaches(GraphOf(cues), cues[m].id, x);
        GroupsMeetOnlyAtOneRoot(cues, k, m, x);
      }
    }
    forall i, j | 0 <= i < j < |group + rest| ensures (group + rest)[i] != (group + rest)[j] {
      if i < |group| <= j { assert group[i] in group && rest[j - |group|] in rest; }
    }
  }

  lemma GroupsMeetOnlyAtOneRoot(cues: seq<Cue>, k: int, m: int, x: string)
    requires UniqueIds(cues) && SingleParent(cues) && TopLevel(cues, k) && TopLevel(cues, m)
    requires Reaches(GraphOf(cues), cues[k].id, x) && Reaches(GraphOf(cues), cues[m].id, x)
    ensures k == m
  {
    var g := GraphOf(cues);
    var p :| Walk(g, p) && p[0] == cues[k].id && p[|p| - 1] == x;
    var q :| Walk(g, q) && q[0] == cues[m].id && q[|q| - 1] == x;
    OneRoot(cues, p, q);
  }

  ghost predicate IsEnabled(cues: seq<Cue>, x: string) {
    exists i :: 0 <= i < |cues| && cues[i].id == x && cues[i].enabled
  }

  /** From no current cue, repeating plain GO until NO_NEXT_CUE executes every enabled cue exactly once
      and no disabled cue. */
  lemma WholeShow(cues: seq<Cue>)
    requires UniqueIds(cues) && Valid(cues) && forall i | 0 <= i < |cues| :: cues[i].id != ""
    ensures NoRepeats(Show(cues, None))
    ensures forall x :: x in Show(cues, None) <==> IsEnabled(cues, x)
  {
    hide Show, UniqueIds, Valid, Reaches;
    ShowFrom(cues, None);
    forall x ensures ReachedFrom(cues, 0, x) <==> IsEnabled(cues, x) {
      if ReachedFrom(cues, 0, x) {
        var k :| 0 <= k && TopLevel(cues, k) && Reaches(GraphOf(cues), cues[k].id, x);
        ReachedIsEnabled(cues, k, x);
      }
      if IsEnabled(cues, x) { EnabledIsReached(cues, x); }
    }
  }

  lemma EnabledIsReached(cues: seq<Cue>, x: string)
    requires UniqueIds(cues) && Valid(cues) && IsEnabled(cues, x)
    ensures ReachedFrom(cues, 0, x)
  {
    hide Valid, UniqueIds;
    GraphLooksUp(cues);
    assert Walk(GraphOf(cues), [x]);
    var k := TopAncestor(cues, [x]);
  }

  lemma ReachedIsEnabled(cues: seq<Cue>, k: int, x: string)
    requires UniqueIds(cues) && Valid(cues) && TopLevel(cues, k) && Reaches(GraphOf(cues), cues[k].id, x)
    ensures IsEnabled(cues, x)
  {
    var g := GraphOf(cues);
    GraphLooksUp(cues);
    var p :| Walk(g, p) && p[0] == cues[k].id && p[|p| - 1] == x;
    if |p| > 1 {
      StepIsNested(cues, p);
      var i :| 0 <= i < |cues| && x in LinksOf(cues[i]);
      assert x in g && g[x].enabled;
    }
  }

  /** On a valid list a plain GO is never refused: it selects a cue, or there is none left. */
  lemma PlainGoIsNeverRefused(cues: seq<Cue>, current: Option<string>)
    requires UniqueIds(cues) && Valid(cues)
    requires current.Some? ==> exists i :: 0 <= i < |cues| && cues[i].id == current.value
    ensures Select(cues, current, PLAIN_GO).Selected? || Select(cues, current, PLAIN_GO) == NoNextCue
  {
    hide Valid, Resolvable, TopLevel;
    ValidationAgrees(cues);
    if current.Some? { var k := IndexOf(cues, current.value); }
  }
}
