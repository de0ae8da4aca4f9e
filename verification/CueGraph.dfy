/** Cues linked to cues: walks along links, and the depth-first search that collects a group. */
module CueGraph {
  import opened StageTypes

  /** `links` is what the execution policy parses to, `None` when it does not parse. */
  datatype Cue = Cue(id: string, enabled: bool, links: Option<seq<string>>)

  type Graph = map<string, Cue>

  function Links(g: Graph, id: string): seq<string> {
    if id in g && g[id].links.Some? then g[id].links.value else []
  }

  // ---------------------------------------------------------------- walks

  ghost predicate Walk(g: Graph, p: seq<string>) {
    p != [] && forall i | 0 < i < |p| :: p[i] in Links(g, p[i - 1])
  }

  /** The walk ends at a cue that is missing, disabled or unparsable, or that it already met. */
  ghost predicate Broken(g: Graph, p: seq<string>)
    requires p != []
  {
    var x := p[|p| - 1];
    x !in g || g[x].links.None? || (1 < |p| && !g[x].enabled) || (exists j | 0 <= j < |p| - 1 :: p[j] == x)
  }

  ghost predicate Sound(g: Graph, root: string) {
    forall p | Walk(g, p) && p[0] == root :: !Broken(g, p)
  }

  ghost predicate Reaches(g: Graph, a: string, b: string) {
    exists p :: Walk(g, p) && p[0] == a && p[|p| - 1] == b
  }

  lemma WalkOn(g: Graph, p: seq<string>, x: string)
    requires Walk(g, p) && x in Links(g, p[|p| - 1])
    ensures Walk(g, p + [x])
  {
  }

  lemma ReachesOn(g: Graph, a: string, b: string, c: string)
    requires a == b || b in Links(g, a)
    requires Reaches(g, b, c)
    ensures Reaches(g, a, c)
  {
    var p :| Walk(g, p) && p[0] == b && p[|p| - 1] == c;
    if a != b {
      assert Walk(g, [a] + p);
      assert ([a] + p)[0] == a && ([a] + p)[|[a] + p| - 1] == c;
    }
  }

  lemma ReachesSelf(g: Graph, a: string)
    ensures Reaches(g, a, a)
  {
    assert Walk(g, [a]) && [a][0] == a;
  }

  // ---------------------------------------------------------------- the search

  /** `done` lists cues in the order they were finished, `out` in the order they were met. */
  datatype Search = Search(done: seq<string>, out: seq<string>)

  function Elements(s: seq<string>): set<string> {
    set x | x in s
  }

  lemma StackGrows(g: Graph, stack: seq<string>, id: string)
    requires id in g && id !in stack
    ensures |g.Keys - Elements(stack + [id])| < |g.Keys - Elements(stack)|
  {
    var before, after := g.Keys - Elements(stack), g.Keys - Elements(stack + [id]);
    assert forall x | x in after :: x in before;
    assert id in before && id !in after;
    ProperSubset(after, before, id);
  }

  lemma ProperSubset(a: set<string>, b: set<string>, x: string)
    requires (forall y | y in a :: y in b) && x in b && x !in a
    ensures |a| < |b|
  {
    var rest := b - {x};
    assert forall y | y in a :: y in rest;
    assert a <= rest;
    CardinalityGrows(a, rest);
  }

  lemma {:induction false} CardinalityGrows(a: set<string>, b: set<string>)
    requires a <= b
    ensures |a| <= |b|
  {
    if x :| x in a {
      assert forall y | y in a - {x} :: y in b - {x};
      CardinalityGrows(a - {x}, b - {x});
    }
  }

  function Visit(g: Graph, stack: seq<string>, id: string, s: Search): Option<Search>
    requires id in g
    decreases |g.Keys - Elements(stack)|, 0, 0
  {
    if id in stack then None
    else if id in s.done then Some(s)
    else if g[id].links.None? then None
    else
      StackGrows(g, stack, id);
      match VisitAll(g, stack + [id], g[id].links.value, s.(out := s.out + [id]))
      case None => None
      case Some(n) => Some(n.(done := n.done + [id]))
  }

  function VisitAll(g: Graph, stack: seq<string>, children: seq<string>, s: Search): Option<Search>
    decreases |g.Keys - Elements(stack)|, 1, |children|
  {
    if children == [] then Some(s)
    else if children[0] !in g || !g[children[0]].enabled then None
    else
      match Visit(g, stack, children[0], s)
      case None => None
      case Some(n) => VisitAll(g, stack, children[1..], n)
  }

  /** The group of a cue: itself and every cue it starts, in the order the search meets them. */
  function Resolve(g: Graph, root: string): Option<seq<string>>
    requires root in g
  {
    match Visit(g, [], root, Search([], []))
    case None => None
    case Some(s) => Some(s.out)
  }

  // ---------------------------------------------------------------- what a finished search has found

  /** Every finished cue has all its children finished before it. */
  ghost predicate Closed(g: Graph, done: seq<string>) {
    forall i | 0 <= i < |done| ::
      && done[i] in g && g[done[i]].links.Some?
      && forall c | c in g[done[i]].links.value :: c in g && g[c].enabled && c in done[..i]
  }

  ghost predicate Searching(g: Graph, stack: seq<string>, s: Search) {
    && NoRepeats(s.out) && NoRepeats(s.done) && Closed(g, s.done)
    && (forall x :: x in s.out <==> x in s.done || x in stack)
    && (forall x | x in stack :: x !in s.done)
  }

  ghost predicate Extends(g: Graph, id: string, s: Search, n: Search) {
    && s.done <= n.done && s.out <= n.out
    && (forall x | x in n.out && x !in s.out :: Reaches(g, id, x))
  }

  lemma StartSearching(g: Graph, stack: seq<string>, id: string, s: Search)
    requires Searching(g, stack, s) && id !in s.done && id !in stack
    ensures Searching(g, stack + [id], s.(out := s.out + [id]))
  {
  }

  /** A cue whose children are all finished is finished next. */
  lemma FinishSearching(g: Graph, stack: seq<string>, id: string, n: Search)
    requires Searching(g, stack + [id], n) && id !in stack && id in g && g[id].links.Some?
    requires forall c | c in g[id].links.value :: c in g && g[c].enabled && c in n.done
    ensures Searching(g, stack, n.(done := n.done + [id]))
  {
    var done := n.done + [id];
    assert (stack + [id])[|stack|] == id;
    assert id in stack + [id] && id !in n.done;
    assert forall x | x in stack :: x in stack + [id];
    assert forall x :: x in stack + [id] <==> x in stack || x == id;
    assert forall x :: x in done <==> x in n.done || x == id;
    assert NoRepeats(done);
    forall i | 0 <= i < |done|
      ensures done[i] in g && g[done[i]].links.Some?
      ensures forall c | c in g[done[i]].links.value :: c in g && g[c].enabled && c in done[..i]
    {
      assert done[..i] == if i < |n.done| then n.done[..i] else n.done;
    }
  }

  lemma {:induction false} VisitFinds(g: Graph, stack: seq<string>, id: string, s: Search)
    requires id in g && Searching(g, stack, s) && Visit(g, stack, id, s).Some?
    ensures var n := Visit(g, stack, id, s).value;
            && Searching(g, stack, n) && Extends(g, id, s, n) && id in n.done
            && (id !in s.done ==> s.out + [id] <= n.out)
    decreases |g.Keys - Elements(stack)|, 0, 0
  {
    hide Searching, Reaches;
    if id !in s.done {
      StackGrows(g, stack, id);
      var m := s.(out := s.out + [id]);
      StartSearching(g, stack, id, s);
      VisitAllFinds(g, stack + [id], id, g[id].links.value, m);
      var n := VisitAll(g, stack + [id], g[id].links.value, m).value;
      FinishSearching(g, stack, id, n);
      ReachesSelf(g, id);
    } else {
      assert Extends(g, id, s, s);
    }
  }

  lemma {:induction false} VisitAllFinds(g: Graph, stack: seq<string>, id: string, children: seq<string>, s: Search)
    requires Searching(g, stack, s) && VisitAll(g, stack, children, s).Some?
    requires forall c | c in children :: c in Links(g, id)
    ensures var n := VisitAll(g, stack, children, s).value;
            && Searching(g, stack, n) && Extends(g, id, s, n)
            && (forall c | c in children :: c in g && g[c].enabled && c in n.done)
    decreases |g.Keys - Elements(stack)|, 1, |children|
  {
    if children != [] {
      VisitFinds(g, stack, children[0], s);
      var m := Visit(g, stack, children[0], s).value;
      VisitAllFinds(g, stack, id, children[1..], m);
      var n := VisitAll(g, stack, children[1..], m).value;
      forall x | x in n.out && x !in s.out ensures Reaches(g, id, x) {
        if x in m.out { ReachesOn(g, id, children[0], x); }
      }
    }
  }

  lemma {:induction false} VisitFails(g: Graph, stack: seq<string>, id: string, s: Search)
    requires id in g && Walk(g, stack + [id]) && Visit(g, stack, id, s).None?
    ensures !Sound(g, (stack + [id])[0])
    decreases |g.Keys - Elements(stack)|, 0, 0
  {
    var p := stack + [id];
    if id in stack {
      var j :| 0 <= j < |stack| && stack[j] == id;
      assert p[j] == p[|p| - 1] && Broken(g, p);
    } else if g[id].links.None? {
      assert Broken(g, p);
    } else {
      StackGrows(g, stack, id);
      VisitAllFails(g, stack + [id], g[id].links.value, s.(out := s.out + [id]));
    }
  }

  lemma {:induction false} VisitAllFails(g: Graph, stack: seq<string>, children: seq<string>, s: Search)
    requires Walk(g, stack) && (forall c | c in children :: c in Links(g, stack[|stack| - 1]))
    requires VisitAll(g, stack, children, s).None?
    ensures !Sound(g, stack[0])
    decreases |g.Keys - Elements(stack)|, 1, |children|
  {
    var c := children[0];
    assert c in children && forall d | d in children[1..] :: d in children;
    WalkOn(g, stack, c);
    if c !in g || !g[c].enabled {
      assert Broken(g, stack + [c]);
    } else if Visit(g, stack, c, s).None? {
      VisitFails(g, stack, c, s);
    } else {
      VisitAllFails(g, stack, children[1..], Visit(g, stack, c, s).value);
    }
  }

  /** Walks from a finished cue go through cues finished before it. */
  lemma {:induction false} WalkDescends(g: Graph, done: seq<string>, i: nat, p: seq<string>)
    requires Closed(g, done) && i < |done| && Walk(g, p) && p[0] == done[i]
    ensures forall k | 0 < k < |p| :: p[k] in done[..i] && p[k] in g && g[p[k]].enabled
  {
    if |p| > 1 {
      var j :| 0 <= j < i && done[..i][j] == p[1];
      WalkDescends(g, done, j, p[1..]);
      forall k | 0 < k < |p| ensures p[k] in done[..i] && p[k] in g && g[p[k]].enabled {
        if k > 1 { assert p[k] == p[1..][k - 1] && p[k] in done[..j]; }
      }
    }
  }

  lemma FinishedWalkLater(g: Graph, done: seq<string>, p: seq<string>, a: nat, b: nat)
    requires Closed(g, done) && NoRepeats(done) && Walk(g, p) && a < b < |p| && p[a] in done
    ensures p[a] != p[b] && p[b] in done && p[b] in g && g[p[b]].enabled
  {
    var i :| 0 <= i < |done| && done[i] == p[a];
    WalkDescends(g, done, i, p[a..]);
    assert p[b] == p[a..][b - a];
  }

  lemma FinishedWalks(g: Graph, done: seq<string>, p: seq<string>)
    requires Closed(g, done) && NoRepeats(done) && Walk(g, p) && p[0] in done
    ensures NoRepeats(p) && !Broken(g, p) && forall k | 0 <= k < |p| :: p[k] in done
  {
    forall k | 0 <= k < |p| ensures p[k] in done {
      if k > 0 { FinishedWalkLater(g, done, p, 0, k); }
    }
    forall a, b | 0 <= a < b < |p| ensures p[a] != p[b] {
      FinishedWalkLater(g, done, p, a, b);
    }
    if |p| > 1 { FinishedWalkLater(g, done, p, 0, |p| - 1); }
  }

  lemma ResolveFinds(g: Graph, root: string)
    requires root in g && Resolve(g, root).Some?
    ensures var n := Visit(g, [], root, Search([], [])).value;
            && NoRepeats(n.done) && Closed(g, n.done) && NoRepeats(n.out) && [root] <= n.out && root in n.done
            && (forall x :: x in n.out <==> x in n.done)
            && (forall x | x in n.out :: Reaches(g, root, x))
  {
    hide Reaches, Visit;
    VisitFinds(g, [], root, Search([], []));
    assert [] + [root] == [root];
  }

  /** The search of a group succeeds exactly when no walk from the root is broken. */
  lemma ResolveIffSound(g: Graph, root: string)
    requires root in g
    ensures Resolve(g, root).Some? <==> Sound(g, root)
  {
    hide Visit, Broken;
    if Resolve(g, root).None? {
      assert [] + [root] == [root] && Walk(g, [root]);
      VisitFails(g, [], root, Search([], []));
    } else {
      ResolveFinds(g, root);
      forall p | Walk(g, p) && p[0] == root ensures !Broken(g, p) {
        FinishedWalks(g, Visit(g, [], root, Search([], [])).value.done, p);
      }
    }
  }

  /** A resolved group lists the root first and every cue it reaches exactly once, all of them enabled
      apart, perhaps, from the root. */
  lemma ResolveLists(g: Graph, root: string)
    requires root in g && Resolve(g, root).Some?
    ensures var out := Resolve(g, root).value;
            && out != [] && out[0] == root && NoRepeats(out)
            && (forall x :: x in out <==> Reaches(g, root, x))
            && (forall i | 0 < i < |out| :: out[i] in g && g[out[i]].enabled)
  {
    hide Visit, Broken;
    ResolveFinds(g, root);
    var n := Visit(g, [], root, Search([], [])).value;
    forall x | Reaches(g, root, x) ensures x in n.out {
      var p :| Walk(g, p) && p[0] == root && p[|p| - 1] == x;
      FinishedWalks(g, n.done, p);
    }
    forall i | 0 < i < |n.out| ensures n.out[i] in g && g[n.out[i]].enabled {
      assert n.out[0] == [root][0] && n.out[0] != n.out[i];
      assert n.out[i] in n.out;
      var p :| Walk(g, p) && p[0] == root && p[|p| - 1] == n.out[i];
      LaterIsEnabled(g, n.done, p);
    }
  }

  lemma LaterIsEnabled(g: Graph, done: seq<string>, p: seq<string>)
    requires Closed(g, done) && Walk(g, p) && p[0] in done && p[|p| - 1] != p[0]
    ensures p[|p| - 1] in g && g[p[|p| - 1]].enabled
  {
    var i :| 0 <= i < |done| && done[i] == p[0];
    WalkDescends(g, done, i, p);
  }

  // ---------------------------------------------------------------- the reachable part

  /** Every cue that is reached parses, and links only to enabled cues that exist. */
  ghost predicate ReachableReady(g: Graph, root: string) {
    forall x | Reaches(g, root, x) ::
      x in g && g[x].links.Some? && forall c | c in g[x].links.value :: c in g && g[c].enabled
  }

  /** No cue that is reached is reached again from one of its children. */
  ghost predicate ReachableAcyclic(g: Graph, root: string) {
    forall x, y | Reaches(g, root, x) && y in Links(g, x) :: !Reaches(g, y, x)
  }

  lemma CycleIsBroken(g: Graph, root: string, x: string, y: string)
    requires Reaches(g, root, x) && y in Links(g, x) && Reaches(g, y, x)
    ensures !Sound(g, root)
  {
    var p :| Walk(g, p) && p[0] == root && p[|p| - 1] == x;
    var q :| Walk(g, q) && q[0] == y && q[|q| - 1] == x;
    var r := p + q;
    assert Walk(g, r) && r[0] == root;
    assert r[|p| - 1] == r[|r| - 1];
    assert Broken(g, r);
  }

  /** A walk reaches its later cues from its earlier ones. */
  lemma PartReaches(g: Graph, p: seq<string>, i: nat, j: nat)
    requires Walk(g, p) && i <= j < |p|
    ensures Reaches(g, p[i], p[j])
  {
    var q := p[i..j + 1];
    assert Walk(g, q) && q[0] == p[i] && q[|q| - 1] == p[j];
  }

  lemma LinkIsReady(g: Graph, root: string, x: string, y: string)
    requires ReachableReady(g, root) && Reaches(g, root, x) && y in Links(g, x)
    ensures y in g && g[y].enabled
  {
    hide Reaches;
  }

  lemma BrokenWalkTells(g: Graph, root: string, p: seq<string>)
    requires root in g && Walk(g, p) && p[0] == root && Broken(g, p) && ReachableReady(g, root)
    ensures !ReachableAcyclic(g, root)
  {
    hide Reaches, Links;
    var n := |p| - 1;
    PartReaches(g, p, 0, n);
    if n > 0 {
      assert p[n] in Links(g, p[n - 1]);
      PartReaches(g, p, 0, n - 1);
      LinkIsReady(g, root, p[n - 1], p[n]);
    }
    var j :| 0 <= j < n && p[j] == p[n];
    PartReaches(g, p, j, n - 1);
  }

  /** So resolving fails exactly when the part of the graph that the root reaches has a missing or
      disabled child, a policy that does not parse, or a cycle. */
  lemma ResolveFailsExactly(g: Graph, root: string)
    requires root in g
    ensures Resolve(g, root).None? <==> !ReachableReady(g, root) || !ReachableAcyclic(g, root)
  {
    hide Visit, Resolve;
    ResolveIffSound(g, root);
    if Sound(g, root) {
      forall x | Reaches(g, root, x)
        ensures x in g && g[x].links.Some? && forall c | c in g[x].links.value :: c in g && g[c].enabled
      {
        ReachedIsReady(g, root, x);
      }
      forall x, y | Reaches(g, root, x) && y in Links(g, x) ensures !Reaches(g, y, x) {
        if Reaches(g, y, x) { CycleIsBroken(g, root, x, y); }
      }
    } else {
      var p :| Walk(g, p) && p[0] == root && Broken(g, p);
      if ReachableReady(g, root) { BrokenWalkTells(g, root, p); }
    }
  }

  lemma ReachedIsReady(g: Graph, root: string, x: string)
    requires Sound(g, root) && Reaches(g, root, x)
    ensures x in g && g[x].links.Some? && forall c | c in g[x].links.value :: c in g && g[c].enabled
  {
    var p :| Walk(g, p) && p[0] == root && p[|p| - 1] == x;
    assert !Broken(g, p);
    forall c | c in g[x].links.value ensures c in g && g[c].enabled {
      WalkOn(g, p, c);
      assert (p + [c])[0] == root && !Broken(g, p + [c]);
    }
  }
}
