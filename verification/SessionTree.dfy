/**
 The tree of a session and its descendants, collected over stored parent links, and its
 deletion from the leaves up.
 */
module SessionTree {
  import opened DependencyGraph
  import opened Sequences

  // A stored session with its parent; no parent is the empty string.
  datatype Summary = Summary(id: Id, parent: Id)

  predicate ChildOf(summaries: seq<Summary>, child: Id, parent: Id) {
    parent != "" && Summary(child, parent) in summaries
  }

  // Every id is listed once, so that it has one parent at most.
  ghost predicate OneEach(summaries: seq<Summary>) {
    forall i, j | 0 <= i < j < |summaries| :: summaries[i].id != summaries[j].id
  }

  lemma ListedNext(summaries: seq<Summary>, i: nat)
    requires i < |summaries|
    ensures forall a, b :: ChildOf(summaries[..i + 1], b, a) <==>
              ChildOf(summaries[..i], b, a) || (a != "" && a == summaries[i].parent && b == summaries[i].id)
  {
    assert summaries[..i + 1] == summaries[..i] + [summaries[i]];
  }

  function WithChild(g: Graph, parent: Id, child: Id): Graph {
    g[parent := (if parent in g then g[parent] else []) + [child]]
  }

  // The children of each parent, in the order of the list.
  function Children(summaries: seq<Summary>): Graph {
    if summaries == [] then map[]
    else
      var before, s := Children(summaries[..|summaries| - 1]), summaries[|summaries| - 1];
      if s.parent == "" then before else WithChild(before, s.parent, s.id)
  }

  // The edges lead from parents to their children.
  lemma {:induction false} ChildrenAreLinks(summaries: seq<Summary>)
    ensures forall a, b :: Edge(Children(summaries), a, b) <==> ChildOf(summaries, b, a)
  {
    if summaries != [] {
      var before, s := summaries[..|summaries| - 1], summaries[|summaries| - 1];
      ChildrenAreLinks(before);
      ListedNext(summaries, |summaries| - 1);
      assert summaries[..|summaries|] == summaries;
      assert forall a, b :: Edge(WithChild(Children(before), s.parent, s.id), a, b) <==>
          Edge(Children(before), a, b) || (a == s.parent && b == s.id);
    }
  }

  function IfChildOf(parent: Id): Summary -> seq<Id> {
    (s: Summary) => if s.parent == parent && parent != "" then [s.id] else []
  }

  // The children of each parent stand in the order of the list.
  lemma {:induction false} ChildrenInOrder(summaries: seq<Summary>, parent: Id)
    ensures FlatMap(IfChildOf(parent), summaries) == if parent in Children(summaries) then Children(summaries)[parent] else []
  {
    if summaries != [] {
      var before, s := summaries[..|summaries| - 1], summaries[|summaries| - 1];
      ChildrenInOrder(before, parent);
      assert summaries == before + [s];
      FlatMapSnoc(IfChildOf(parent), before, s);
      hide FlatMap;
    }
  }

  method ChildrenByParent(summaries: seq<Summary>) returns (children: Graph)
    ensures children == Children(summaries)
  {
    children := map[];
    for i := 0 to |summaries|
      invariant children == Children(summaries[..i])
    {
      assert summaries[..i + 1][..i] == summaries[..i];
      var s := summaries[i];
      if s.parent != "" {
        children := WithChild(children, s.parent, s.id);
      }
    }
    assert summaries[..|summaries|] == summaries;
  }

  // ids holds sessions reached from the root, each once and after one of its parents; what
  // they lead to is among them or still pending.
  ghost predicate Collected(g: Graph, root: Id, ids: seq<Id>, pending: seq<Id>) {
    Listed(g, root, ids) && Outside(g, root, ids, pending)
  }

  ghost predicate Listed(g: Graph, root: Id, ids: seq<Id>) {
    && NoDuplicates(ids)
    && (ids != [] ==> ids[0] == root)
    && (forall x | x in ids :: Reaches(g, root, x))
    && (forall i | 0 < i < |ids| :: HasParentBefore(g, ids, i))
  }

  ghost predicate Outside(g: Graph, root: Id, ids: seq<Id>, pending: seq<Id>) {
    && (ids == [] ==> pending == [root])
    && (forall x | x in pending :: Reaches(g, root, x) && (x == root || HasParentIn(g, ids, x)))
    && (forall a, b :: a in ids && Edge(g, a, b) ==> b in ids || b in pending)
  }

  ghost predicate HasParentIn(g: Graph, ids: seq<Id>, x: Id) {
    exists p :: p in ids && Edge(g, p, x)
  }

  ghost predicate HasParentBefore(g: Graph, ids: seq<Id>, i: int)
    requires 0 <= i < |ids|
  {
    HasParentIn(g, ids[..i], ids[i])
  }

  // What the collected list is in the end.
  ghost predicate IsTree(g: Graph, root: Id, ids: seq<Id>) {
    && NoDuplicates(ids) && ids != [] && ids[0] == root
    && (forall x :: x in ids <==> Reaches(g, root, x))
    && (forall i | 0 < i < |ids| :: HasParentBefore(g, ids, i))
  }

  lemma SkipSeen(g: Graph, root: Id, ids: seq<Id>, pending: seq<Id>)
    requires Collected(g, root, ids, pending) && pending != [] && pending[|pending| - 1] in ids
    ensures Collected(g, root, ids, pending[..|pending| - 1])
  {
    hide Listed, Reaches, HasParentIn;
    assert pending == pending[..|pending| - 1] + [pending[|pending| - 1]];
  }

  lemma ListedWith(g: Graph, root: Id, ids: seq<Id>, x: Id)
    requires Listed(g, root, ids) && x !in ids && Reaches(g, root, x)
    requires if ids == [] then x == root else HasParentIn(g, ids, x)
    ensures Listed(g, root, ids + [x])
  {
    hide Reaches, HasParentIn;
    var ids' := ids + [x];
    forall i | 0 < i < |ids'| ensures HasParentBefore(g, ids', i) {
      if i < |ids| {
        assert HasParentBefore(g, ids, i);
        assert ids'[..i] == ids[..i];
      } else {
        assert ids'[..i] == ids;
      }
    }
  }

  lemma PendingHaveParents(g: Graph, root: Id, ids: seq<Id>, front: seq<Id>, x: Id)
    requires Outside(g, root, ids, front + [x])
    ensures forall y | y in front + (if x in g then g[x] else []) ::
              Reaches(g, root, y) && (y == root || HasParentIn(g, ids + [x], y))
  {
    hide Reaches;
    assert x in front + [x];
    forall y | y in front + (if x in g then g[x] else [])
      ensures Reaches(g, root, y) && (y == root || HasParentIn(g, ids + [x], y))
    {
      if y in front {
        assert y in front + [x];
        if p :| p in ids && Edge(g, p, y) { assert p in ids + [x]; }
      } else {
        assert Edge(g, x, y) && x in ids + [x];
        EdgeLeads(g, x, y);
        LeadsTransitive(g, root, x, y);
      }
    }
  }

  lemma NothingIsMissed(g: Graph, ids: seq<Id>, front: seq<Id>, x: Id)
    requires forall a, b :: a in ids && Edge(g, a, b) ==> b in ids || b in front + [x]
    ensures forall a, b :: a in ids + [x] && Edge(g, a, b) ==> b in ids + [x] || b in front + if x in g then g[x] else []
  {}

  // The next one is listed, and its children become pending.
  lemma VisitNext(g: Graph, root: Id, ids: seq<Id>, front: seq<Id>, x: Id)
    requires Collected(g, root, ids, front + [x]) && x !in ids
    ensures Collected(g, root, ids + [x], front + if x in g then g[x] else [])
  {
    assert x in front + [x];
    if ids == [] {
      assert (front + [x])[|front|] == x == root;
    }
    ListedWith(g, root, ids, x);
    PendingHaveParents(g, root, ids, front, x);
    NothingIsMissed(g, ids, front, x);
    hide Listed, Reaches, HasParentIn, Edge;
  }

  // The root first, then its descendants, whatever the links look like.
  method TreeIds(summaries: seq<Summary>, root: Id) returns (ids: seq<Id>)
    ensures IsTree(Children(summaries), root, ids)
  {
    hide Reaches, Collected, Children;
    var children := ChildrenByParent(summaries);
    ghost var g := children;
    ids := [];
    var pending := [root];
    var visited: set<Id> := {};
    OnlyTheRoot(g, root);
    while pending != []
      invariant Collected(g, root, ids, pending) && (forall x :: x in visited <==> x in ids)
      invariant visited <= Nodes(g) + {root} && forall x | x in pending :: x in Nodes(g) + {root}
      decreases Nodes(g) + {root} - visited, |pending|
    {
      var current := pending[|pending| - 1];
      assert pending == pending[..|pending| - 1] + [current];
      if current in visited {
        SkipSeen(g, root, ids, pending);
        pending := pending[..|pending| - 1];
      } else {
        VisitNext(g, root, ids, pending[..|pending| - 1], current);
        visited := visited + {current};
        ids := ids + [current];
        pending := pending[..|pending| - 1] + if current in children then children[current] else [];
      }
    }
    AllCollected(g, root, ids);
  }

  lemma OnlyTheRoot(g: Graph, root: Id)
    ensures Collected(g, root, [], [root])
  {}

  lemma AllCollected(g: Graph, root: Id, ids: seq<Id>)
    requires Collected(g, root, ids, [])
    ensures IsTree(g, root, ids)
  {
    assert ids != [];
    var all := set x | x in ids;
    forall x | Reaches(g, root, x) ensures x in ids {
      ReachesStaysInside(g, all, root, x);
    }
  }

  /* ----- deletion ----- */

  // A survivor of the tree that has lost its parent.
  ghost predicate Orphaned(summaries: seq<Summary>, survivors: seq<Id>, deleted: seq<Id>, x: Id) {
    x in survivors && exists p :: p in deleted && ChildOf(summaries, x, p)
  }

  lemma OneParent(summaries: seq<Summary>, x: Id, p: Id, q: Id)
    requires OneEach(summaries) && ChildOf(summaries, x, p) && ChildOf(summaries, x, q)
    ensures p == q
  {}

  lemma SplitIsDisjoint(ids: seq<Id>, k: nat, p: Id)
    requires NoDuplicates(ids) && k <= |ids| && p in ids[..k]
    ensures p !in ids[k..]
  {}

  // Deleting the list from its end and stopping anywhere leaves every survivor but the root
  // its parent.
  lemma SurvivorsKeepParents(summaries: seq<Summary>, root: Id, ids: seq<Id>, k: nat, i: nat)
    requires OneEach(summaries) && IsTree(Children(summaries), root, ids) && 0 < i < k <= |ids|
    ensures exists p :: ChildOf(summaries, ids[i], p) && p in ids[..k]
    ensures !Orphaned(summaries, ids[..k], ids[k..], ids[i])
  {
    ChildrenAreLinks(summaries);
    assert HasParentBefore(Children(summaries), ids, i);
    var p :| p in ids[..i] && Edge(Children(summaries), p, ids[i]);
    assert p in ids[..k] by { assert ids[..k] == ids[..i] + ids[i..k]; }
    SplitIsDisjoint(ids, k, p);
    forall q | ChildOf(summaries, ids[i], q) ensures q == p { OneParent(summaries, ids[i], p, q); }
  }

  // No stop of the deletion orphans anyone exactly when the root's own parent is not one of
  // its descendants.
  lemma NeverOrphansIff(summaries: seq<Summary>, root: Id, ids: seq<Id>)
    requires OneEach(summaries) && IsTree(Children(summaries), root, ids)
    ensures (forall k, x | 0 <= k <= |ids| :: !Orphaned(summaries, ids[..k], ids[k..], x)) <==>
              (forall p | ChildOf(summaries, root, p) :: p == root || p !in ids)
  {
    if p :| ChildOf(summaries, root, p) && p != root && p in ids {
      var k :| 0 <= k < |ids| && ids[k] == p;
      assert root in ids[..k] by { assert ids[..k][0] == root; }
      assert p in ids[k..] by { assert ids[k..][0] == p; }
      assert Orphaned(summaries, ids[..k], ids[k..], root);
    } else {
      forall k, x | 0 <= k <= |ids| ensures !Orphaned(summaries, ids[..k], ids[k..], x) {
        RootKeepsParent(summaries, root, ids, k, x);
      }
    }
  }

  lemma RootKeepsParent(summaries: seq<Summary>, root: Id, ids: seq<Id>, k: nat, x: Id)
    requires OneEach(summaries) && IsTree(Children(summaries), root, ids) && k <= |ids|
    requires forall p | ChildOf(summaries, root, p) :: p == root || p !in ids
    ensures !Orphaned(summaries, ids[..k], ids[k..], x)
  {
    if x in ids[..k] {
      var i :| 0 <= i < k && ids[i] == x;
      if i > 0 {
        SurvivorsKeepParents(summaries, root, ids, k, i);
      } else {
        SplitIsDisjoint(ids, k, root);
      }
    }
  }

  // Two sessions that name each other as parent: when the deletion of one stops before the
  // root, the root has lost its parent.
  lemma ParentCycleOrphans()
    ensures var summaries, ids := [Summary("a", "b"), Summary("b", "a")], ["a", "b"];
      && OneEach(summaries) && IsTree(Children(summaries), "a", ids)
      && Orphaned(summaries, ids[..1], ids[1..], "a")
  {
    var summaries, ids := [Summary("a", "b"), Summary("b", "a")], ["a", "b"];
    assert "a"[0] != "b"[0];
    ChildrenAreLinks(summaries);
    hide Children;
    var g := Children(summaries);
    assert Summary("a", "b") in summaries && Summary("b", "a") in summaries;
    assert Edge(g, "b", "a") && Edge(g, "a", "b");
    assert forall a, b :: Edge(g, a, b) ==> b in ids;
    EdgeLeads(g, "a", "b");
    assert Reaches(g, "a", "a") && Reaches(g, "a", "b");
    forall x | Reaches(g, "a", x) ensures x in ids {
      ReachesStaysInside(g, {"a", "b"}, "a", x);
    }
    assert ids[..1] == ["a"] && ids[1..] == ["b"];
    assert HasParentBefore(g, ids, 1);
  }

  class SessionStore {
    var present: set<Id>

    // Deletes from the end of the list and stops at the first session that cannot be
    // stopped; what is gone is a rest of the list.
    method DeleteTree(ids: seq<Id>, stuck: set<Id>) returns (ok: bool, deleted: seq<Id>, ghost k: nat)
      requires NoDuplicates(ids)
      modifies this
      ensures k <= |ids| && deleted == Reversed(ids[k..])
      ensures present == old(present) - (set x | x in ids[k..])
      ensures ok <==> k == 0
      ensures ok <==> forall x | x in ids && x in old(present) :: x !in stuck
      ensures !ok ==> ids[k - 1] in stuck && ids[k - 1] in present
    {
      deleted := [];
      k := |ids|;
      var i := |ids|;
      while i > 0
        invariant 0 <= i == k <= |ids| && deleted == Reversed(ids[i..])
        invariant present == old(present) - (set x | x in ids[i..])
        invariant forall x | x in ids[i..] && x in old(present) :: x !in stuck
      {
        SplitStep(ids, i);
        var x := ids[i - 1];
        if x in present && x in stuck {
          assert x in ids;
          return false, deleted, k;
        }
        present := present - {x};
        deleted := deleted + [x];
        i := i - 1;
        k := i;
        assert ids[i..] == [x] + ids[i + 1..];
      }
      assert ids[0..] == ids;
      ok := true;
    }
  }
}
