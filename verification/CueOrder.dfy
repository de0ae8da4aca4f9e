/** The order of a cue group: as the cues are met first on a tour along the links, each link list from front to back. */
module CueOrder {
  import opened StageTypes
  import opened CueGraph

  /** All cues on the tour from this one, with every link followed every time. */
  function Tour(g: Graph, stack: seq<string>, id: string): seq<string>
    decreases |g.Keys - Elements(stack)|, 0, 0
  {
    if id !in g || id in stack then [id]
    else
      StackGrows(g, stack, id);
      [id] + TourAll(g, stack + [id], Links(g, id))
  }

  function TourAll(g: Graph, stack: seq<string>, ids: seq<string>): seq<string>
    decreases |g.Keys - Elements(stack)|, 1, |ids|
  {
    if ids == [] then [] else Tour(g, stack, ids[0]) + TourAll(g, stack, ids[1..])
  }

  /** The list, and behind it whatever the tour meets that is not in it yet. */
  function Adding(list: seq<string>, tour: seq<string>): seq<string>
    decreases |tour|
  {
    if tour == [] then list
    else Adding(if tour[0] in list then list else list + [tour[0]], tour[1..])
  }

  lemma {:induction false} AddingBoth(list: seq<string>, a: seq<string>, b: seq<string>)
    ensures Adding(list, a + b) == Adding(Adding(list, a), b)
    decreases |a|
  {
    if a == [] {
      assert a + b == b;
    } else {
      assert (a + b)[1..] == a[1..] + b;
      AddingBoth(if a[0] in list then list else list + [a[0]], a[1..], b);
    }
  }

  lemma {:induction false} AddingNothing(list: seq<string>, tour: seq<string>)
    requires forall x | x in tour :: x in list
    ensures Adding(list, tour) == list
    decreases |tour|
  {
    if tour != [] {
      assert tour[0] in tour && forall x | x in tour[1..] :: x in tour;
      AddingNothing(list, tour[1..]);
    }
  }

  lemma {:induction false} TourReaches(g: Graph, stack: seq<string>, id: string)
    ensures forall x | x in Tour(g, stack, id) :: Reaches(g, id, x)
    decreases |g.Keys - Elements(stack)|, 0, 0
  {
    hide Reaches;
    ReachesSelf(g, id);
    if id in g && id !in stack {
      StackGrows(g, stack, id);
      TourAllReaches(g, stack + [id], id, Links(g, id));
    }
  }

  lemma {:induction false} TourAllReaches(g: Graph, stack: seq<string>, id: string, ids: seq<string>)
    requires forall c | c in ids :: c in Links(g, id)
    ensures forall x | x in TourAll(g, stack, ids) :: Reaches(g, id, x)
    decreases |g.Keys - Elements(stack)|, 1, |ids|
  {
    hide Reaches;
    if ids != [] {
      TourReaches(g, stack, ids[0]);
      TourAllReaches(g, stack, id, ids[1..]);
      forall x | x in Tour(g, stack, ids[0]) ensures Reaches(g, id, x) { ReachesOn(g, id, ids[0], x); }
    }
  }

  lemma FinishedIsListed(g: Graph, stack: seq<string>, id: string, s: Search)
    requires Searching(g, stack, s) && id in s.done
    ensures forall x | Reaches(g, id, x) :: x in s.out
  {
    forall x | Reaches(g, id, x) ensures x in s.out {
      var p :| Walk(g, p) && p[0] == id && p[|p| - 1] == x;
      FinishedWalks(g, s.done, p);
    }
  }

  lemma {:induction false} VisitTours(g: Graph, stack: seq<string>, id: string, s: Search)
    requires id in g && Searching(g, stack, s) && Visit(g, stack, id, s).Some?
    ensures Visit(g, stack, id, s).value.out == Adding(s.out, Tour(g, stack, id))
    decreases |g.Keys - Elements(stack)|, 0, 0
  {
    hide Searching, Reaches;
    if id in s.done {
      FinishedIsListed(g, stack, id, s);
      TourReaches(g, stack, id);
      AddingNothing(s.out, Tour(g, stack, id));
    } else {
      StackGrows(g, stack, id);
      StartSearching(g, stack, id, s);
      var rest := TourAll(g, stack + [id], Links(g, id));
      VisitAllTours(g, stack + [id], id, g[id].links.value, s.(out := s.out + [id]));
      NewIsNotListed(g, stack, id, s);
      assert ([id] + rest)[1..] == rest;
    }
  }

  lemma NewIsNotListed(g: Graph, stack: seq<string>, id: string, s: Search)
    requires Searching(g, stack, s) && id !in s.done && id !in stack
    ensures id !in s.out
  {
  }

  lemma {:induction false} VisitAllTours(g: Graph, stack: seq<string>, id: string, children: seq<string>, s: Search)
    requires Searching(g, stack, s) && VisitAll(g, stack, children, s).Some?
    requires forall c | c in children :: c in Links(g, id)
    ensures VisitAll(g, stack, children, s).value.out == Adding(s.out, TourAll(g, stack, children))
    decreases |g.Keys - Elements(stack)|, 1, |children|
  {
    hide Searching, Reaches;
    if children != [] {
      VisitTours(g, stack, children[0], s);
      VisitFinds(g, stack, children[0], s);
      VisitAllTours(g, stack, id, children[1..], Visit(g, stack, children[0], s).value);
      AddingBoth(s.out, Tour(g, stack, children[0]), TourAll(g, stack, children[1..]));
    }
  }

  /** A resolved group lists its cues in the order in which the tour from the root meets them first. */
  lemma ResolveInOrder(g: Graph, root: string)
    requires root in g && Resolve(g, root).Some?
    ensures Resolve(g, root).value == Adding([], Tour(g, [], root))
  {
    VisitTours(g, [], root, Search([], []));
  }
}
