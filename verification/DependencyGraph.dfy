/**
 Paths, cycles and closures in a dependency graph that may be cyclic. A node without an
 entry in the graph has no dependencies.
 */
module DependencyGraph {
  type Id = string
  type Graph = map<Id, seq<Id>>

  predicate Edge(g: Graph, a: Id, b: Id) {
    a in g && b in g[a]
  }

  // A path follows at least one edge.
  ghost predicate Path(g: Graph, p: seq<Id>) {
    |p| >= 2 && forall i | 0 <= i < |p| - 1 :: Edge(g, p[i], p[i + 1])
  }

  ghost predicate Leads(g: Graph, a: Id, b: Id) {
    exists p :: Path(g, p) && p[0] == a && p[|p| - 1] == b
  }

  ghost predicate Reaches(g: Graph, a: Id, b: Id) {
    a == b || Leads(g, a, b)
  }

  ghost predicate OnCycle(g: Graph, a: Id) {
    Leads(g, a, a)
  }

  ghost predicate Reached(g: Graph, roots: seq<Id>, x: Id) {
    exists r :: r in roots && Reaches(g, r, x)
  }

  // No edge leaves the set.
  ghost predicate Closed(g: Graph, s: set<Id>) {
    forall a, b :: a in s && Edge(g, a, b) ==> b in s
  }

  lemma EdgeLeads(g: Graph, a: Id, b: Id)
    requires Edge(g, a, b)
    ensures Leads(g, a, b)
  {
    assert Path(g, [a, b]);
  }

  lemma LeadsTransitive(g: Graph, a: Id, b: Id, c: Id)
    requires Reaches(g, a, b) && Reaches(g, b, c)
    ensures Reaches(g, a, c)
    ensures Leads(g, a, b) || Leads(g, b, c) ==> Leads(g, a, c)
  {
    if Leads(g, a, b) && Leads(g, b, c) {
      var p :| Path(g, p) && p[0] == a && p[|p| - 1] == b;
      var q :| Path(g, q) && q[0] == b && q[|q| - 1] == c;
      var r := p + q[1..];
      forall i | 0 <= i < |r| - 1 ensures Edge(g, r[i], r[i + 1]) {
        if i >= |p| - 1 { assert r[i] == q[i - |p| + 1] && r[i + 1] == q[i - |p| + 2]; }
      }
      assert Path(g, r) && r[0] == a && r[|r| - 1] == c;
    }
  }

  // A path starts with an edge.
  lemma LeadsThrough(g: Graph, a: Id, b: Id) returns (d: Id)
    requires Leads(g, a, b)
    ensures Edge(g, a, d) && Reaches(g, d, b)
  {
    var p :| Path(g, p) && p[0] == a && p[|p| - 1] == b;
    d := p[1];
    var q := p[1..];
    forall i | 0 <= i < |q| - 1 ensures Edge(g, q[i], q[i + 1]) {
      assert Edge(g, p[i + 1], p[i + 2]);
    }
    assert |q| >= 2 ==> Path(g, q);
  }

  lemma {:induction false} PathStaysInside(g: Graph, s: set<Id>, p: seq<Id>, i: nat)
    requires Closed(g, s) && Path(g, p) && p[0] in s && i < |p|
    ensures p[i] in s
  {
    if i > 0 {
      PathStaysInside(g, s, p, i - 1);
      assert Edge(g, p[i - 1], p[i]);
    }
  }

  lemma ReachesStaysInside(g: Graph, s: set<Id>, a: Id, b: Id)
    requires Closed(g, s) && a in s && Reaches(g, a, b)
    ensures b in s
  {
    if a != b {
      var p :| Path(g, p) && p[0] == a && p[|p| - 1] == b;
      PathStaysInside(g, s, p, |p| - 1);
    }
  }

  // The reachable nodes are the smallest closed set that holds the roots.
  lemma ReachedIsClosure(g: Graph, roots: seq<Id>, s: set<Id>)
    requires Closed(g, s)
    requires forall r | r in roots :: r in s
    requires forall x | x in s :: Reached(g, roots, x)
    ensures forall x :: x in s <==> Reached(g, roots, x)
  {
    forall x | Reached(g, roots, x) ensures x in s {
      var r :| r in roots && Reaches(g, r, x);
      ReachesStaysInside(g, s, r, x);
    }
  }

  lemma ReachedStep(g: Graph, roots: seq<Id>, a: Id, b: Id)
    requires Reached(g, roots, a) && Reaches(g, a, b)
    ensures Reached(g, roots, b)
  {
    var r :| r in roots && Reaches(g, r, a);
    LeadsTransitive(g, r, a, b);
  }

  /* ----- acyclicity, stated on every node and as a ranking ----- */

  ghost predicate Acyclic(g: Graph) {
    forall x :: !OnCycle(g, x)
  }

  // A numbering under which every dependency has a smaller number.
  ghost predicate Ranks(g: Graph, rank: map<Id, nat>) {
    forall a, b :: Edge(g, a, b) ==> a in rank && b in rank && rank[b] < rank[a]
  }

  lemma {:induction false} RankFallsAlongPath(g: Graph, rank: map<Id, nat>, p: seq<Id>, i: nat)
    requires Ranks(g, rank) && Path(g, p) && 0 < i < |p|
    ensures p[0] in rank && p[i] in rank && rank[p[i]] < rank[p[0]]
  {
    assert Edge(g, p[i - 1], p[i]);
    if i > 1 { RankFallsAlongPath(g, rank, p, i - 1); }
  }

  function Nodes(g: Graph): set<Id> {
    g.Keys + set a, b | a in g && b in g[a] :: b
  }

  // The nodes a path from x leads to.
  ghost function Below(g: Graph, x: Id): set<Id> {
    set y | y in Nodes(g) && Leads(g, x, y)
  }

  lemma BelowShrinks(g: Graph, a: Id, b: Id)
    requires Acyclic(g) && Edge(g, a, b)
    ensures Below(g, b) < Below(g, a)
  {
    EdgeLeads(g, a, b);
    forall y | y in Below(g, b) ensures y in Below(g, a) {
      LeadsTransitive(g, a, b, y);
    }
    assert b in Nodes(g) && b in Below(g, a);
    assert !OnCycle(g, b);
  }

  lemma SubsetIsSmaller(a: set<Id>, b: set<Id>)
    requires a < b
    ensures |a| < |b|
  {
    var x :| x in b && x !in a;
    assert a <= b - {x};
    SubsetIsNotLarger(a, b - {x});
  }

  lemma {:induction false} SubsetIsNotLarger(a: set<Id>, b: set<Id>)
    requires a <= b
    ensures |a| <= |b|
  {
    if a != {} {
      var x :| x in a;
      SubsetIsNotLarger(a - {x}, b - {x});
    }
  }

  // Having no cycle and having a ranking are the same.
  lemma AcyclicIffRanked(g: Graph)
    ensures Acyclic(g) <==> exists rank :: Ranks(g, rank)
  {
    if Acyclic(g) {
      var rank := map x | x in Nodes(g) :: |Below(g, x)|;
      forall a, b | Edge(g, a, b) ensures a in rank && b in rank && rank[b] < rank[a] {
        BelowShrinks(g, a, b);
        SubsetIsSmaller(Below(g, b), Below(g, a));
      }
      assert Ranks(g, rank);
    }
    if rank :| Ranks(g, rank) {
      forall x ensures !OnCycle(g, x) {
        if OnCycle(g, x) {
          var p :| Path(g, p) && p[0] == x && p[|p| - 1] == x;
          RankFallsAlongPath(g, rank, p, |p| - 1);
          assert false;
        }
      }
    }
  }
}
