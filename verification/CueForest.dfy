/** What makes a cue list a forest of linked cues, said twice: as the author-time validation checks it
    and as the engine checks it before every GO. The two agree. */
module CueForest {
  import opened StageTypes
  import opened CueGraph

  predicate UniqueIds(cues: seq<Cue>) {
    forall i, j | 0 <= i < j < |cues| :: cues[i].id != cues[j].id
  }

  function GraphOf(cues: seq<Cue>): Graph {
    if cues == [] then map[] else GraphOf(cues[..|cues| - 1])[cues[|cues| - 1].id := cues[|cues| - 1]]
  }

  lemma {:induction false} GraphHoldsCues(cues: seq<Cue>)
    ensures forall id | id in GraphOf(cues) :: exists i :: 0 <= i < |cues| && cues[i].id == id
  {
    if cues != [] {
      var n := |cues| - 1;
      GraphHoldsCues(cues[..n]);
      forall id | id in GraphOf(cues) ensures exists i :: 0 <= i < |cues| && cues[i].id == id {
        if id == cues[n].id {
          assert cues[n].id == id;
        } else {
          assert id in GraphOf(cues[..n]);
          var i :| 0 <= i < |cues[..n]| && cues[..n][i].id == id;
          assert cues[i].id == id;
        }
      }
    }
  }

  lemma {:induction false} GraphLooksUp(cues: seq<Cue>)
    requires UniqueIds(cues)
    ensures forall i | 0 <= i < |cues| :: cues[i].id in GraphOf(cues) && GraphOf(cues)[cues[i].id] == cues[i]
    ensures forall id | id in GraphOf(cues) :: exists i :: 0 <= i < |cues| && cues[i].id == id
  {
    GraphHoldsCues(cues);
    if cues != [] {
      var n := |cues| - 1;
      GraphLooksUp(cues[..n]);
      forall i | 0 <= i < |cues| ensures cues[i].id in GraphOf(cues) && GraphOf(cues)[cues[i].id] == cues[i] {
        if i < n { assert cues[..n][i] == cues[i]; }
      }
    }
  }

  function LinksOf(c: Cue): seq<string> {
    if c.links.Some? then c.links.value else []
  }

  predicate Parses(cues: seq<Cue>) {
    forall i | 0 <= i < |cues| :: cues[i].links.Some?
  }

  predicate NoDisabledOwner(cues: seq<Cue>) {
    forall i | 0 <= i < |cues| :: LinksOf(cues[i]) != [] ==> cues[i].enabled
  }

  predicate ChildrenReady(cues: seq<Cue>, g: Graph) {
    forall i | 0 <= i < |cues| :: forall c | c in LinksOf(cues[i]) :: c in g && g[c].enabled
  }

  ghost predicate SingleParent(cues: seq<Cue>) {
    forall i, j, c | 0 <= i < |cues| && 0 <= j < |cues| && c in LinksOf(cues[i]) && c in LinksOf(cues[j]) ::
      cues[i].id == cues[j].id
  }

  ghost predicate Acyclic(g: Graph) {
    forall p | Walk(g, p) :: NoRepeats(p)
  }

  /** What author-time validation accepts. */
  ghost predicate Valid(cues: seq<Cue>) {
    && Parses(cues) && NoDisabledOwner(cues) && ChildrenReady(cues, GraphOf(cues)) && SingleParent(cues)
    && Acyclic(GraphOf(cues))
  }

  /** What the engine accepts: one parent each, and every group resolves on its own. */
  ghost predicate Resolvable(cues: seq<Cue>) {
    && Parses(cues) && SingleParent(cues)
    && (forall i | 0 <= i < |cues| :: cues[i].id in GraphOf(cues) && Resolve(GraphOf(cues), cues[i].id).Some?)
  }

  lemma SoundFromValid(cues: seq<Cue>, root: string)
    requires UniqueIds(cues) && Valid(cues) && root in GraphOf(cues)
    ensures Sound(GraphOf(cues), root)
  {
    var g := GraphOf(cues);
    GraphLooksUp(cues);
    forall p | Walk(g, p) && p[0] == root ensures !Broken(g, p) {
      var x := p[|p| - 1];
      assert NoRepeats(p);
      if |p| > 1 {
        assert x in Links(g, p[|p| - 2]);
        var i :| 0 <= i < |cues| && cues[i].id == p[|p| - 2];
        assert x in LinksOf(cues[i]);
      }
      var k :| 0 <= k < |cues| && cues[k].id == x;
    }
  }

  lemma {:induction false} SoundWalksRepeatNothing(g: Graph, p: seq<string>)
    requires Walk(g, p) && Sound(g, p[0])
    ensures NoRepeats(p)
  {
    if |p| > 1 {
      var q := p[..|p| - 1];
      assert Walk(g, q) && q[0] == p[0];
      SoundWalksRepeatNothing(g, q);
      assert !Broken(g, p);
    }
  }

  lemma LongWalksStartInside(g: Graph, p: seq<string>)
    requires Walk(g, p) && 1 < |p|
    ensures p[0] in g
  {
    assert p[1] in Links(g, p[0]);
  }

  /** Author-time validation accepts a cue list exactly when the engine resolves every group of it and
      no disabled cue owns links. */
  lemma ValidationAgrees(cues: seq<Cue>)
    requires UniqueIds(cues)
    ensures Valid(cues) <==> Resolvable(cues) && NoDisabledOwner(cues)
  {
    var g := GraphOf(cues);
    GraphLooksUp(cues);
    if Valid(cues) {
      forall i | 0 <= i < |cues| ensures cues[i].id in g && Resolve(g, cues[i].id).Some? {
        SoundFromValid(cues, cues[i].id);
        ResolveIffSound(g, cues[i].id);
      }
    }
    if Resolvable(cues) && NoDisabledOwner(cues) {
      forall i | 0 <= i < |cues| ensures Sound(g, cues[i].id) { ResolveIffSound(g, cues[i].id); }
      forall p | Walk(g, p) ensures NoRepeats(p) {
        if |p| > 1 {
          LongWalksStartInside(g, p);
          var i :| 0 <= i < |cues| && cues[i].id == p[0];
          SoundWalksRepeatNothing(g, p);
        }
      }
      forall i, c | 0 <= i < |cues| && c in LinksOf(cues[i]) ensures c in g && g[c].enabled {
        assert Walk(g, [cues[i].id, c]) && [cues[i].id, c][0] == cues[i].id;
        assert !Broken(g, [cues[i].id, c]);
      }
    }
  }
}
