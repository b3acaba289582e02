/**
 The order in which a depth-first walk finishes the nodes it reaches, from given roots and along
 the dependencies as they are listed.
 */
module LoadOrder {
  import opened DependencyGraph

  function Targets(g: Graph): set<Id> {
    set a, b | a in g && b in g[a] :: b
  }

  lemma TargetsHoldEdges(g: Graph)
    ensures forall a, b :: Edge(g, a, b) ==> b in Targets(g)
  {}

  function Below(g: Graph, x: Id): seq<Id> {
    if x in g then g[x] else []
  }

  // What has been met after the visit of x, and which of the known nodes it has finished. A node
  // met before is passed over; all others in the universe can still be visited.
  function Visited(g: Graph, known: set<Id>, universe: set<Id>, x: Id, met: set<Id>): (r: (set<Id>, seq<Id>))
    ensures met <= r.0
    decreases universe - met, 0
  {
    if x in met || x !in universe then (met, [])
    else
      var below := VisitedAll(g, known, universe, Below(g, x), met + {x});
      (below.0, below.1 + if x in known then [x] else [])
  }

  function VisitedAll(g: Graph, known: set<Id>, universe: set<Id>, xs: seq<Id>, met: set<Id>): (r: (set<Id>, seq<Id>))
    ensures met <= r.0
    decreases universe - met, |xs|
  {
    if xs == [] then (met, [])
    else
      var first := Visited(g, known, universe, xs[0], met);
      var others := VisitedAll(g, known, universe, xs[1..], first.0);
      (others.0, first.1 + others.1)
  }

  // The load order of these roots.
  function Finished(g: Graph, known: set<Id>, roots: seq<Id>): seq<Id> {
    VisitedAll(g, known, known + Targets(g), roots, {}).1
  }

  // What earlier roots reach comes before what only later ones reach.
  lemma {:induction false} VisitedAllConcat(g: Graph, known: set<Id>, universe: set<Id>, xs: seq<Id>, ys: seq<Id>, met: set<Id>)
    ensures var first := VisitedAll(g, known, universe, xs, met);
      var others := VisitedAll(g, known, universe, ys, first.0);
      VisitedAll(g, known, universe, xs + ys, met) == (others.0, first.1 + others.1)
    decreases |xs|
  {
    hide Visited;
    if xs == [] {
      assert xs + ys == ys;
      assert [] + VisitedAll(g, known, universe, ys, met).1 == VisitedAll(g, known, universe, ys, met).1;
    } else {
      assert (xs + ys)[1..] == xs[1..] + ys;
      var one := Visited(g, known, universe, xs[0], met);
      VisitedAllConcat(g, known, universe, xs[1..], ys, one.0);
      var some := VisitedAll(g, known, universe, xs[1..], one.0);
      var others := VisitedAll(g, known, universe, ys, some.0);
      assert one.1 + (some.1 + others.1) == (one.1 + some.1) + others.1;
    }
  }

  // Roots that come later only add to the end of the order.
  lemma EarlierRootsFirst(g: Graph, known: set<Id>, roots: seq<Id>, more: seq<Id>)
    requires forall r | r in roots + more :: r in known
    ensures Finished(g, known, roots) <= Finished(g, known, roots + more)
  {
    VisitedAllConcat(g, known, known + Targets(g), roots, more, {});
  }

  // A node is finished behind everything its visit has finished, and its dependencies are visited
  // as they are listed.
  lemma VisitedLast(g: Graph, known: set<Id>, universe: set<Id>, x: Id, met: set<Id>)
    requires x in universe && x !in met
    ensures Visited(g, known, universe, x, met).0 == VisitedAll(g, known, universe, Below(g, x), met + {x}).0
    ensures Visited(g, known, universe, x, met).1 ==
            VisitedAll(g, known, universe, Below(g, x), met + {x}).1 + if x in known then [x] else []
  {}

  lemma VisitedNext(g: Graph, known: set<Id>, universe: set<Id>, xs: seq<Id>, i: nat, met: set<Id>)
    requires i < |xs|
    ensures var one := Visited(g, known, universe, xs[i], met);
      var others := VisitedAll(g, known, universe, xs[i + 1..], one.0);
      VisitedAll(g, known, universe, xs[i..], met) == (others.0, one.1 + others.1)
  {
    assert xs[i..][1..] == xs[i + 1..];
  }
}
