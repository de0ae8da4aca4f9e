/** The cue checks as they are written: recursive searches over shared maps, and loops that fill maps,
    each proved against what the cue graph says. */
module CueEngine {
  import opened StageTypes
  import opened CueGraph
  import opened CueForest
  import opened CueShow

  method ById(cues: seq<Cue>) returns (g: Graph)
    ensures g == GraphOf(cues)
  {
    g := map[];
    for i := 0 to |cues|
      invariant g == GraphOf(cues[..i])
    {
      assert cues[..i + 1][..i] == cues[..i];
      g := g[cues[i].id := cues[i]];
    }
    assert cues[..|cues|] == cues;
  }

  predicate Keyed(g: Graph) {
    forall id | id in g :: g[id].id == id
  }

  lemma {:induction false} GraphIsKeyed(cues: seq<Cue>)
    ensures Keyed(GraphOf(cues))
  {
    if cues != [] { GraphIsKeyed(cues[..|cues| - 1]); }
  }

  // ---------------------------------------------------------------- resolving a group

  /** The variables that the recursive visit of a group shares. */
  class GroupSearch {
    const byID: Graph
    var state: map<string, int>
    var added: set<string>
    var out: seq<string>
    ghost var done: seq<string>

    constructor (g: Graph)
      ensures byID == g && fresh(this)
      ensures Mirrors([]) && out == [] && done == []
    {
      byID, state, added, out, done := g, map[], {}, [], [];
    }

    /** State 1 marks the cues on the stack, 2 the finished ones. */
    ghost predicate Mirrors(stack: seq<string>)
      reads this
    {
      && (forall x :: x in stack <==> x in state && state[x] == 1)
      && (forall x :: x in done <==> x in state && state[x] == 2)
      && (forall x :: x in added <==> x in out)
      && (forall x :: x in out <==> x in stack || x in done)
    }

    method Enter(id: string, ghost stack: seq<string>)
      requires Mirrors(stack) && id !in stack && id !in done
      modifies this
      ensures Mirrors(stack + [id]) && done == old(done) && out == old(out) + [id]
    {
      assert id !in out;
      state := state[id := 1];
      if id !in added {
        out := out + [id];
        added := added + {id};
      }
      assert forall x :: x in stack + [id] <==> x in stack || x == id;
      assert forall x :: x in out <==> x in old(out) || x == id;
    }

    method Leave(id: string, ghost stack: seq<string>)
      requires Mirrors(stack + [id]) && id !in stack
      modifies this
      ensures Mirrors(stack) && done == old(done) + [id] && out == old(out)
    {
      assert forall x :: x in stack + [id] <==> x in stack || x == id;
      state := state[id := 2];
      done := done + [id];
      assert forall x :: x in done <==> x in old(done) || x == id;
    }

    method Visit(cue: Cue, ghost stack: seq<string>) returns (ok: bool)
      requires Keyed(byID) && cue.id in byID && byID[cue.id] == cue && Mirrors(stack)
      modifies this
      ensures match CueGraph.Visit(byID, stack, cue.id, old(Search(done, out)))
              case None => !ok
              case Some(n) => ok && done == n.done && out == n.out && Mirrors(stack)
      decreases |byID.Keys - Elements(stack)|, 0, 0
    {
      if cue.id in state && state[cue.id] == 1 { return false; }
      if cue.id in state && state[cue.id] == 2 { return true; }
      assert cue.id !in stack && cue.id !in done;
      StackGrows(byID, stack, cue.id);
      Enter(cue.id, stack);
      if cue.links.None? { return false; }
      ok := VisitChildren(cue, stack + [cue.id]);
      if !ok { return; }
      Leave(cue.id, stack);
    }

    /** The loop over the links of one cue. */
    method VisitChildren(cue: Cue, ghost stack: seq<string>) returns (ok: bool)
      requires Keyed(byID) && cue.links.Some? && Mirrors(stack)
      modifies this
      ensures match VisitAll(byID, stack, cue.links.value, old(Search(done, out)))
              case None => !ok
              case Some(n) => ok && done == n.done && out == n.out && Mirrors(stack)
      decreases |byID.Keys - Elements(stack)|, 1, 0
    {
      var children := cue.links.value;
      ghost var result := VisitAll(byID, stack, children, Search(done, out));
      for i := 0 to |children|
        invariant VisitAll(byID, stack, children[i..], Search(done, out)) == result
        invariant Mirrors(stack)
      {
        if children[i] !in byID { return false; }
        var child := byID[children[i]];
        if !child.enabled { return false; }
        assert children[i..][0] == children[i] && children[i..][1..] == children[i + 1..];
        ok := Visit(child, stack);
        if !ok { return; }
      }
      ok := true;
    }
  }

  /** The group started by a cue of the manifest. */
  method ResolveCueGroup(cues: seq<Cue>, root: Cue) returns (group: Option<seq<string>>)
    requires UniqueIds(cues) && root in cues
    ensures root.id in GraphOf(cues) && group == Resolve(GraphOf(cues), root.id)
  {
    GraphLooksUp(cues);
    GraphIsKeyed(cues);
    var byID := ById(cues);
    var search := new GroupSearch(byID);
    var ok := search.Visit(root, []);
    group := if ok then Some(search.out) else None;
  }

  // ---------------------------------------------------------------- parents

  /** The map holds the owner of every link of the first n cues, and nothing else. */
  ghost predicate ParentsOf(cues: seq<Cue>, n: nat, parent: map<string, string>)
    requires n <= |cues|
  {
    && (forall i, c | 0 <= i < n && c in LinksOf(cues[i]) :: c in parent && parent[c] == cues[i].id)
    && (forall c | c in parent :: exists i :: 0 <= i < n && c in LinksOf(cues[i]) && cues[i].id == parent[c])
  }

  /** Records the owner of the given links; `fits` tells that none of them has another owner. */
  method AddParents(owner: string, links: seq<string>, parent: map<string, string>)
    returns (fits: bool, out: map<string, string>)
    ensures fits <==> forall c | c in links && c in parent :: parent[c] == owner
    ensures fits ==> forall c :: c in out <==> c in parent || c in links
    ensures fits ==> forall c | c in out :: out[c] == if c in links then owner else parent[c]
  {
    out := parent;
    for i := 0 to |links|
      invariant forall c | c in links[..i] && c in parent :: parent[c] == owner
      invariant forall c :: c in out <==> c in parent || c in links[..i]
      invariant forall c | c in out :: out[c] == if c in links[..i] then owner else parent[c]
    {
      if links[i] in out && out[links[i]] != owner { return false, out; }
      out := out[links[i] := owner];
      assert links[..i + 1] == links[..i] + [links[i]];
    }
    assert links[..|links|] == links;
    fits := true;
  }

  lemma ParentsGrow(cues: seq<Cue>, i: nat, parent: map<string, string>, out: map<string, string>)
    requires i < |cues| && ParentsOf(cues, i, parent)
    requires forall c :: c in out <==> c in parent || c in LinksOf(cues[i])
    requires forall c | c in out :: out[c] == if c in LinksOf(cues[i]) then cues[i].id else parent[c]
    requires forall c | c in LinksOf(cues[i]) && c in parent :: parent[c] == cues[i].id
    ensures ParentsOf(cues, i + 1, out)
  {
    forall c | c in out ensures exists k :: 0 <= k < i + 1 && c in LinksOf(cues[k]) && cues[k].id == out[c] {
      if c !in LinksOf(cues[i]) {
        var k :| 0 <= k < i && c in LinksOf(cues[k]) && cues[k].id == parent[c];
      }
    }
  }

  lemma SecondParent(cues: seq<Cue>, i: nat, parent: map<string, string>, c: string)
    requires i < |cues| && ParentsOf(cues, i, parent)
    requires c in LinksOf(cues[i]) && c in parent && parent[c] != cues[i].id
    ensures !SingleParent(cues)
  {
    var k :| 0 <= k < i && c in LinksOf(cues[k]) && cues[k].id == parent[c];
  }

  lemma ParentsTell(cues: seq<Cue>, parent: map<string, string>)
    requires ParentsOf(cues, |cues|, parent)
    ensures SingleParent(cues) && forall c :: c in parent <==> Nested(cues, c)
  {
    forall i, j, c | 0 <= i < |cues| && 0 <= j < |cues| && c in LinksOf(cues[i]) && c in LinksOf(cues[j])
      ensures cues[i].id == cues[j].id
    {
      assert parent[c] == cues[i].id;
    }
  }

  // ---------------------------------------------------------------- the check of the engine

  /** The owner of every link, if all policies parse and no cue has two owners. */
  method CollectParents(cues: seq<Cue>) returns (parents: Option<map<string, string>>)
    ensures parents.Some? <==> Parses(cues) && SingleParent(cues)
    ensures parents.Some? ==> ParentsOf(cues, |cues|, parents.value)
  {
    hide ParentsOf, SingleParent;
    var parent: map<string, string> := map[];
    assert ParentsOf(cues, 0, parent) by { NoParents(cues); }
    for i := 0 to |cues|
      invariant forall k | 0 <= k < i :: cues[k].links.Some?
      invariant ParentsOf(cues, i, parent)
    {
      if cues[i].links.None? { return None; }
      var fits, out := AddParents(cues[i].id, cues[i].links.value, parent);
      if !fits {
        var c :| c in LinksOf(cues[i]) && c in parent && parent[c] != cues[i].id;
        SecondParent(cues, i, parent, c);
        return None;
      }
      ParentsGrow(cues, i, parent, out);
      parent := out;
    }
    ParentsTell(cues, parent);
    parents := Some(parent);
  }

  lemma NoParents(cues: seq<Cue>)
    ensures ParentsOf(cues, 0, map[])
  {
  }

  /** The ids of all linked cues, if the list can be executed. */
  method NestedCueIDs(cues: seq<Cue>) returns (nested: Option<set<string>>)
    requires UniqueIds(cues)
    ensures nested.Some? <==> Resolvable(cues)
    ensures nested.Some? ==> forall id :: id in nested.value <==> Nested(cues, id)
  {
    hide ParentsOf, SingleParent, Resolve, Nested;
    var parents := CollectParents(cues);
    if parents.None? { return None; }
    ParentsTell(cues, parents.value);
    for i := 0 to |cues|
      invariant forall k | 0 <= k < i :: cues[k].id in GraphOf(cues) && Resolve(GraphOf(cues), cues[k].id).Some?
    {
      var group := ResolveCueGroup(cues, cues[i]);
      if group.None? { return None; }
    }
    nested := Some(parents.value.Keys);
  }

  // ---------------------------------------------------------------- the check at author time

  /** The state that the recursive visit of the validation shares. */
  class CycleSearch {
    const edges: Graph
    var state: map<string, int>
    ghost var search: Search

    constructor (g: Graph)
      ensures edges == g && fresh(this) && Mirrors([]) && search == Search([], [])
    {
      edges, state, search := g, map[], Search([], []);
    }

    ghost predicate Mirrors(stack: seq<string>)
      reads this
    {
      && (forall x :: x in stack <==> x in state && state[x] == 1)
      && (forall x :: x in search.done <==> x in state && state[x] == 2)
    }

    method Enter(id: string, ghost stack: seq<string>)
      requires Mirrors(stack) && id !in stack && id !in search.done
      modifies this
      ensures Mirrors(stack + [id]) && search == Search(old(search).done, old(search).out + [id])
    {
      state := state[id := 1];
      search := Search(search.done, search.out + [id]);
      assert forall x :: x in stack + [id] <==> x in stack || x == id;
    }

    method Leave(id: string, ghost stack: seq<string>)
      requires Mirrors(stack + [id]) && id !in stack
      modifies this
      ensures Mirrors(stack) && search == Search(old(search).done + [id], old(search).out)
    {
      assert forall x :: x in stack + [id] <==> x in stack || x == id;
      state := state[id := 2];
      search := Search(search.done + [id], search.out);
      assert forall x :: x in search.done <==> x in old(search).done || x == id;
    }

    /** Refuses when it comes back to a cue it has not left yet. The checks that a cue exists, parses
        and is enabled have all been made before. */
    method Visit(id: string, ghost stack: seq<string>) returns (ok: bool)
      requires id in edges && Ready(edges) && Mirrors(stack)
      modifies this
      ensures match CueGraph.Visit(edges, stack, id, old(search))
              case None => !ok
              case Some(n) => ok && search == n && Mirrors(stack)
      decreases |edges.Keys - Elements(stack)|, 0, 0
    {
      if id in state && state[id] == 1 { return false; }
      if id in state && state[id] == 2 { return true; }
      assert id !in stack && id !in search.done;
      StackGrows(edges, stack, id);
      Enter(id, stack);
      ok := VisitChildren(id, stack + [id]);
      if !ok { return; }
      Leave(id, stack);
    }

    method VisitChildren(id: string, ghost stack: seq<string>) returns (ok: bool)
      requires id in edges && Ready(edges) && Mirrors(stack)
      modifies this
      ensures match VisitAll(edges, stack, edges[id].links.value, old(search))
              case None => !ok
              case Some(n) => ok && search == n && Mirrors(stack)
      decreases |edges.Keys - Elements(stack)|, 1, 0
    {
      var children := edges[id].links.value;
      ghost var result := VisitAll(edges, stack, children, search);
      for i := 0 to |children|
        invariant VisitAll(edges, stack, children[i..], search) == result
        invariant Mirrors(stack)
      {
        assert children[i..][0] == children[i] && children[i..][1..] == children[i + 1..];
        assert children[i] in children;
        ok := Visit(children[i], stack);
        if !ok { return; }
      }
      ok := true;
    }
  }

  /** Every cue parses and every link leads to an enabled cue. */
  ghost predicate Ready(g: Graph) {
    forall id | id in g ::
      g[id].links.Some? && forall c | c in g[id].links.value :: c in g && g[c].enabled
  }

  lemma ReadyButCyclic(g: Graph, id: string)
    requires Ready(g) && id in g && !Sound(g, id)
    ensures !Acyclic(g)
  {
    var p :| Walk(g, p) && p[0] == id && Broken(g, p);
    if |p| > 1 { assert p[|p| - 1] in Links(g, p[|p| - 2]); }
    var j :| 0 <= j < |p| - 1 && p[j] == p[|p| - 1];
    assert !NoRepeats(p);
  }

  lemma AllFinished(g: Graph, search: Search)
    requires Searching(g, [], search) && forall id | id in g :: id in search.done
    ensures Acyclic(g)
  {
    hide Broken, Closed;
    forall p | Walk(g, p) ensures NoRepeats(p) {
      if |p| > 1 {
        LongWalksStartInside(g, p);
        FinishedWalks(g, search.done, p);
      }
    }
  }

  lemma NothingSearched(g: Graph)
    ensures Searching(g, [], Search([], []))
  {
  }

  /** One search from every cue in turn, in whatever order, with one shared state. */
  method CheckCycles(g: Graph) returns (ok: bool)
    requires Ready(g)
    ensures ok <==> Acyclic(g)
  {
    hide Ready, Acyclic, CueGraph.Visit, Searching, Reaches;
    var cycles := new CycleSearch(g);
    NothingSearched(g);
    var todo: set<string> := g.Keys;
    while exists id :: id in todo
      invariant todo <= g.Keys && cycles.edges == g
      invariant cycles.Mirrors([]) && Searching(g, [], cycles.search)
      invariant forall id | id in g && id !in todo :: id in cycles.search.done
      modifies cycles
      decreases |todo|
    {
      var id :| id in todo;
      ghost var before := cycles.search;
      ok := cycles.Visit(id, []);
      if !ok {
        assert [] + [id] == [id] && Walk(g, [id]);
        VisitFails(g, [], id, before);
        ReadyButCyclic(g, id);
        return;
      }
      VisitFinds(g, [], id, before);
      todo := todo - {id};
    }
    AllFinished(g, cycles.search);
    ok := true;
  }

  method ChildrenAllowed(owner: string, links: seq<string>, byID: Graph) returns (allowed: bool)
    ensures allowed <==> forall c | c in links :: c != owner && c in byID && byID[c].enabled
  {
    for i := 0 to |links|
      invariant forall c | c in links[..i] :: c != owner && c in byID && byID[c].enabled
    {
      assert links[i] in links;
      if links[i] == owner || links[i] !in byID || !byID[links[i]].enabled { return false; }
      assert links[..i + 1] == links[..i] + [links[i]];
    }
    assert links[..|links|] == links;
    allowed := true;
  }

  /** What the links of one cue must satisfy by themselves. */
  ghost predicate LinksReady(cue: Cue, g: Graph) {
    && cue.links.Some? && (cue.links.value != [] ==> cue.enabled)
    && forall c | c in cue.links.value :: c != cue.id && c in g && g[c].enabled
  }

  /** The first pass: every cue by itself, and one owner for each linked cue. */
  method CheckLinks(cues: seq<Cue>, byID: Graph) returns (ok: bool)
    ensures ok <==> (forall k | 0 <= k < |cues| :: LinksReady(cues[k], byID)) && SingleParent(cues)
  {
    hide SingleParent, ParentsOf;
    var parent: map<string, string> := map[];
    assert ParentsOf(cues, 0, parent) by { NoParents(cues); }
    for i := 0 to |cues|
      invariant forall k | 0 <= k < i :: LinksReady(cues[k], byID)
      invariant ParentsOf(cues, i, parent)
    {
      var cue := cues[i];
      if cue.links.None? { return false; }
      var links := cue.links.value;
      if links != [] && !cue.enabled { return false; }
      var allowed := ChildrenAllowed(cue.id, links, byID);
      if !allowed { return false; }
      var fits, out := AddParents(cue.id, links, parent);
      if !fits {
        var c :| c in LinksOf(cues[i]) && c in parent && parent[c] != cues[i].id;
        SecondParent(cues, i, parent, c);
        return false;
      }
      ParentsGrow(cues, i, parent, out);
      parent := out;
    }
    ParentsTell(cues, parent);
    ok := true;
  }

  /** What a publisher of a cue list checks. */
  method Validate(cues: seq<Cue>) returns (ok: bool)
    requires UniqueIds(cues)
    ensures ok <==> Valid(cues)
  {
    hide LinksReady, SingleParent, Acyclic, Ready, Valid, UniqueIds;
    var byID := ById(cues);
    ValidInTwoPasses(cues);
    ok := CheckLinks(cues, byID);
    if !ok { return; }
    ok := CheckCycles(byID);
  }

  lemma ValidInTwoPasses(cues: seq<Cue>)
    requires UniqueIds(cues)
    ensures var links := (forall k | 0 <= k < |cues| :: LinksReady(cues[k], GraphOf(cues))) && SingleParent(cues);
            (Valid(cues) <==> links && Acyclic(GraphOf(cues))) && (links ==> Ready(GraphOf(cues)))
  {
    hide Acyclic, SingleParent;
    var g := GraphOf(cues);
    GraphLooksUp(cues);
    if Valid(cues) {
      forall k | 0 <= k < |cues| ensures LinksReady(cues[k], g) {
        if cues[k].id in LinksOf(cues[k]) { SelfLinkIsCycle(g, cues[k].id); }
      }
    }
    if forall k | 0 <= k < |cues| :: LinksReady(cues[k], g) {
      forall k, c | 0 <= k < |cues| && c in LinksOf(cues[k]) ensures c in g && g[c].enabled {
        assert LinksReady(cues[k], g);
      }
      AllReady(cues);
    }
  }

  lemma SelfLinkIsCycle(g: Graph, id: string)
    requires id in Links(g, id)
    ensures !Acyclic(g)
  {
    var p := [id, id];
    assert Walk(g, p);
    assert p[0] == p[1] && !NoRepeats(p);
  }

  lemma AllReady(cues: seq<Cue>)
    requires UniqueIds(cues) && Parses(cues) && ChildrenReady(cues, GraphOf(cues))
    ensures Ready(GraphOf(cues))
  {
    GraphLooksUp(cues);
    forall id | id in GraphOf(cues)
      ensures GraphOf(cues)[id].links.Some?
      ensures forall c | c in GraphOf(cues)[id].links.value :: c in GraphOf(cues) && GraphOf(cues)[c].enabled
    {
      var i :| 0 <= i < |cues| && cues[i].id == id;
    }
  }

  /** The owner of every linked cue of a valid list. */
  method ParentMap(cues: seq<Cue>) returns (parents: Option<map<string, string>>)
    requires UniqueIds(cues)
    ensures parents.Some? <==> Valid(cues)
    ensures parents.Some? ==> ParentsOf(cues, |cues|, parents.value)
  {
    var ok := Validate(cues);
    if !ok { return None; }
    parents := CollectParents(cues);
  }

  // ---------------------------------------------------------------- selecting the next cue

  method FindCue(cues: seq<Cue>, id: string) returns (k: int)
    ensures k == IndexOf(cues, id)
  {
    k := 0;
    while k < |cues|
      invariant 0 <= k <= |cues|
      invariant forall i | 0 <= i < k :: cues[i].id != id
    {
      if cues[k].id == id { break; }
      k := k + 1;
    }
  }

  method SelectCue(cues: seq<Cue>, current: Option<string>, request: GoRequest) returns (s: Selection)
    requires UniqueIds(cues)
    ensures s == Select(cues, current, request)
    ensures Answers(cues, current, request, s)
    ensures s.Selected? ==> 0 <= s.index < |cues| && cues[s.index].enabled
  {
    hide Resolvable, Nested, Answers;
    SelectAnswers(cues, current, request);
    assert Select(cues, current, request).Selected? ==> cues[Select(cues, current, request).index].enabled;
    var now := if current.Some? then current.value else "";
    if request.expected.Some? && request.expected.value != now { return CurrentCueMismatch; }
    if request.requested.Some? {
      var k := FindCue(cues, request.requested.value);
      if k == |cues| { return CueNotInSnapshot; }
      if !cues[k].enabled { return CueDisabled; }
      return Selected(k);
    }
    var nested := NestedCueIDs(cues);
    if nested.None? { return CueGroupInvalid; }
    var start := 0;
    if now != "" {
      start := FindCue(cues, now);
      if start == |cues| { return CurrentCueNotInSnapshot; }
      start := start + 1;
    }
    var i := start;
    while i < |cues|
      invariant start <= i <= |cues|
      invariant NextTop(cues, i) == NextTop(cues, start)
    {
      if cues[i].enabled && cues[i].id !in nested.value { return Selected(i); }
      i := i + 1;
    }
    s := NoNextCue;
  }
}
