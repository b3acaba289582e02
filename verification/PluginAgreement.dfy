/**
 The closure of enabled plugins and the load order of a boot, computed by two algorithms
 over records of their own, compared as sets.
 */
module PluginAgreement {
  import opened DependencyGraph
  import opened ExtensionWalk
  import opened ExtensionLoading
  import opened Outcomes
  import opened PluginManagement
  import opened PythonStrings
  import opened Sequences

  // The walk over what is installed, w, with the configured ids.
  ghost predicate BootedFrom(w: World, strict: bool, failing: set<Id>, registers: set<Id>, configured: seq<Id>,
                             order: seq<Id>, states: map<Id, Status>)
  {
    w.Valid() && Booted(WithStubs(w, configured), strict, failing, registers, Only(configured, w.manifests.Keys), order, states)
  }

  // Reached from what is configured and installed, over plugins the boot can use.
  ghost predicate Usable(w: World, configured: seq<Id>, x: Id) {
    Reached(w.Dependencies(), Only(configured, w.manifests.Keys), x)
  }

  // Installed, or configured, so that a stub stands in for it.
  predicate Present(w: World, configured: seq<Id>, x: Id) {
    x in w.manifests || x in configured
  }

  // Whatever is desired is installed, or has a stub that something usable needs.
  ghost predicate AllThere(w: World, g: Graph, configured: seq<Id>) {
    forall x | Reached(g, configured, x) :: x in w.manifests || (x in configured && Usable(w, configured, x))
  }

  // The boot and the closure follow the same dependencies of x.
  ghost predicate SeenAlike(w: World, g: Graph, x: Id) {
    forall d :: Edge(w.Dependencies(), x, d) <==> Edge(g, x, d)
  }

  // What only the closure sees a plugin depend on, the boot reaches in another way.
  ghost predicate NothingOnlyDesired(w: World, g: Graph, configured: seq<Id>) {
    forall x, d :: Usable(w, configured, x) && Reached(g, configured, x) && !SeenAlike(w, g, x) && Edge(g, x, d) ==>
      Usable(w, configured, d)
  }

  // What only the boot sees a plugin depend on, the closure reaches in another way, or the
  // boot does not order it.
  ghost predicate NothingOnlyOrdered(w: World, g: Graph, configured: seq<Id>) {
    forall x, d :: Usable(w, configured, x) && !SeenAlike(w, g, x) && Edge(w.Dependencies(), x, d) && Present(w, configured, d) ==>
      Reached(g, configured, d)
  }

  /* ----- the edges of the walk ----- */

  lemma StubsAddNoEdges(w: World, configured: seq<Id>, a: Id, b: Id)
    requires w.Valid()
    ensures Edge(WithStubs(w, configured).Dependencies(), a, b) <==> Edge(w.Dependencies(), a, b)
  {}

  lemma SameEdgesReach(g: Graph, h: Graph, roots: seq<Id>, x: Id)
    requires forall a, b :: Edge(g, a, b) <==> Edge(h, a, b)
    ensures Reached(g, roots, x) <==> Reached(h, roots, x)
  {
    if Reached(g, roots, x) { FewerEdgesReachLess(h, g, roots, x); }
    if Reached(h, roots, x) { FewerEdgesReachLess(g, h, roots, x); }
  }

  // The load order holds what is reached over usable plugins, except what is neither
  // installed nor configured.
  lemma OrderedIff(w: World, strict: bool, failing: set<Id>, registers: set<Id>, configured: seq<Id>,
                   order: seq<Id>, states: map<Id, Status>, x: Id)
    requires BootedFrom(w, strict, failing, registers, configured, order, states)
    ensures x in order <==> Usable(w, configured, x) && Present(w, configured, x)
  {
    var w' := WithStubs(w, configured);
    forall a, b ensures Edge(w'.Dependencies(), a, b) <==> Edge(w.Dependencies(), a, b) {
      StubsAddNoEdges(w, configured, a, b);
    }
    SameEdgesReach(w'.Dependencies(), w.Dependencies(), Only(configured, w.manifests.Keys), x);
    hide World.Dependencies, Reached, DependenciesFirst, WellFounded, Only;
  }

  lemma RootIsReached(g: Graph, roots: seq<Id>, r: Id)
    requires r in roots
    ensures Reached(g, roots, r)
  {
    assert Reaches(g, r, r);
  }

  lemma EdgeIsReached(g: Graph, roots: seq<Id>, a: Id, b: Id)
    requires Reached(g, roots, a) && Edge(g, a, b)
    ensures Reached(g, roots, b)
  {
    EdgeLeads(g, a, b);
    ReachedStep(g, roots, a, b);
  }

  // What is reached lies in every set that holds the roots and that no edge leaves.
  lemma ReachedInside(g: Graph, all: set<Id>, roots: seq<Id>, x: Id)
    requires Closed(g, all) && (forall r | r in roots :: r in all) && Reached(g, roots, x)
    ensures x in all
  {
    var r :| r in roots && Reaches(g, r, x);
    ReachesStaysInside(g, all, r, x);
  }

  // A usable plugin that has dependencies is installed.
  lemma DependentIsInstalled(w: World, a: Id, b: Id)
    requires Edge(w.Dependencies(), a, b)
    ensures a in w.manifests && w.Sound(a)
  {}

  // Then every usable plugin that is there is desired: no edge of the walk leaves those that
  // are desired, or not there.
  lemma UsableIsDesired(w: World, g: Graph, configured: seq<Id>, x: Id)
    requires NothingOnlyOrdered(w, g, configured) && Usable(w, configured, x) && Present(w, configured, x)
    ensures Reached(g, configured, x)
  {
    hide World.Dependencies, World.Sound, Reached, Only, SeenAlike;
    var h, roots := w.Dependencies(), Only(configured, w.manifests.Keys);
    var names := Universe(h, roots);
    var all := set y | y in names && Usable(w, configured, y) && (Present(w, configured, y) ==> Reached(g, configured, y));
    forall a, b | a in all && Edge(h, a, b) ensures b in all {
      DependentIsInstalled(w, a, b);
      EdgeIsReached(h, roots, a, b);
      if Present(w, configured, b) && SeenAlike(w, g, a) { SeenEdge(w, g, a, b); EdgeIsReached(g, configured, a, b); }
    }
    forall r | r in roots ensures r in all {
      RootIsReached(h, roots, r);
      RootIsReached(g, configured, r);
    }
    ReachedInside(h, all, roots, x);
  }

  lemma SeenEdge(w: World, g: Graph, a: Id, b: Id)
    requires SeenAlike(w, g, a)
    ensures Edge(w.Dependencies(), a, b) <==> Edge(g, a, b)
  {}

  // Everything ordered is desired exactly when what only the boot sees a plugin depend on is.
  lemma OrderedIsDesiredIff(w: World, g: Graph, strict: bool, failing: set<Id>, registers: set<Id>, configured: seq<Id>,
                            order: seq<Id>, states: map<Id, Status>)
    requires BootedFrom(w, strict, failing, registers, configured, order, states)
    ensures (forall x | x in order :: Reached(g, configured, x)) <==> NothingOnlyOrdered(w, g, configured)
  {
    hide World.Dependencies, Reached, SeenAlike, BootedFrom, Usable, Present;
    forall x ensures x in order <==> Usable(w, configured, x) && Present(w, configured, x) {
      OrderedIff(w, strict, failing, registers, configured, order, states, x);
    }
    if NothingOnlyOrdered(w, g, configured) {
      forall x | x in order ensures Reached(g, configured, x) { UsableIsDesired(w, g, configured, x); }
    } else {
      var x, d :| Usable(w, configured, x) && !SeenAlike(w, g, x) && Edge(w.Dependencies(), x, d) && Present(w, configured, d)
                  && !Reached(g, configured, d);
      UsableEdge(w, configured, x, d);
    }
  }

  lemma UsableEdge(w: World, configured: seq<Id>, a: Id, b: Id)
    requires Usable(w, configured, a) && Edge(w.Dependencies(), a, b)
    ensures Usable(w, configured, b)
  {
    EdgeIsReached(w.Dependencies(), Only(configured, w.manifests.Keys), a, b);
  }

  // Then everything desired is usable: no edge of the closure leaves those that are both.
  lemma DesiredIsUsable(w: World, g: Graph, configured: seq<Id>, x: Id)
    requires AllThere(w, g, configured) && NothingOnlyDesired(w, g, configured) && Reached(g, configured, x)
    ensures Usable(w, configured, x) && Present(w, configured, x)
  {
    hide World.Dependencies, World.Sound, Reached, Only, SeenAlike;
    var all := set y | y in Universe(g, configured) && Reached(g, configured, y) && Usable(w, configured, y);
    forall a, b | a in all && Edge(g, a, b) ensures b in all {
      EdgeIsReached(g, configured, a, b);
      if SeenAlike(w, g, a) { SeenEdge(w, g, a, b); UsableEdge(w, configured, a, b); }
    }
    forall r | r in configured ensures r in all {
      RootIsReached(g, configured, r);
      if r in w.manifests { RootIsReached(w.Dependencies(), Only(configured, w.manifests.Keys), r); }
    }
    ReachedInside(g, all, configured, x);
  }

  // Everything desired is ordered exactly when it is there, and the boot reaches what only
  // the closure sees a plugin depend on.
  lemma DesiredIsOrderedIff(w: World, g: Graph, strict: bool, failing: set<Id>, registers: set<Id>, configured: seq<Id>,
                            order: seq<Id>, states: map<Id, Status>)
    requires BootedFrom(w, strict, failing, registers, configured, order, states)
    ensures (forall x | Reached(g, configured, x) :: x in order) <==>
              AllThere(w, g, configured) && NothingOnlyDesired(w, g, configured)
  {
    hide World.Dependencies, Reached, SeenAlike, BootedFrom, Usable;
    forall x ensures x in order <==> Usable(w, configured, x) && Present(w, configured, x) {
      OrderedIff(w, strict, failing, registers, configured, order, states, x);
    }
    if AllThere(w, g, configured) && NothingOnlyDesired(w, g, configured) {
      forall x | Reached(g, configured, x) ensures x in order { DesiredIsUsable(w, g, configured, x); }
    }
    if forall x | Reached(g, configured, x) :: x in order {
      forall x, d | Usable(w, configured, x) && Reached(g, configured, x) && !SeenAlike(w, g, x) && Edge(g, x, d)
        ensures Usable(w, configured, d)
      {
        EdgeIsReached(g, configured, x, d);
      }
    }
  }

  // Whatever graph the closure is taken over, both algorithms agree exactly when everything
  // desired is there and each of them reaches in another way what only the other one sees a
  // plugin depend on; cycles make no difference. This is when the process needs no restart
  // to catch up.
  lemma BootLoadsDesiredIff(w: World, g: Graph, strict: bool, failing: set<Id>, registers: set<Id>, configured: seq<Id>,
                            order: seq<Id>, states: map<Id, Status>)
    requires BootedFrom(w, strict, failing, registers, configured, order, states)
    ensures NoDuplicates(order)
    ensures (forall x :: x in order <==> Reached(g, configured, x)) <==>
              AllThere(w, g, configured) && NothingOnlyDesired(w, g, configured) && NothingOnlyOrdered(w, g, configured)
  {
    OrderedIsDesiredIff(w, g, strict, failing, registers, configured, order, states);
    DesiredIsOrderedIff(w, g, strict, failing, registers, configured, order, states);
    assert NoDuplicates(order);
    hide World.Dependencies, Reached, AllThere, NothingOnlyDesired, NothingOnlyOrdered, BootedFrom, NoDuplicates;
  }

  // A plugin that is configured and not installed is desired, and it is ordered just when
  // the walk comes to it from one that is installed.
  lemma MissingPluginKeepsThemApart(w: World, g: Graph, strict: bool, failing: set<Id>, registers: set<Id>, configured: seq<Id>,
                                    order: seq<Id>, states: map<Id, Status>, x: Id)
    requires BootedFrom(w, strict, failing, registers, configured, order, states)
    requires x in configured && x !in w.manifests
    ensures Reached(g, configured, x)
    ensures x in order <==> exists e :: e in configured && e in w.manifests && Leads(w.Dependencies(), e, x)
  {
    RootIsReached(g, configured, x);
    OrderedIff(w, strict, failing, registers, configured, order, states, x);
    hide World.Dependencies, BootedFrom, Leads;
  }

  /* ----- the graph plugin management builds after a boot ----- */

  // The manifests the manager keeps of plugins that are not MISSING.
  function Running(manifests: map<Id, Manifest>, states: map<Id, Status>): Graph {
    map x | x in manifests && x in states && states[x] != Missing :: manifests[x].dependencies
  }

  // Where the store still has a package with a readable manifest, this is the one the boot
  // went by.
  ghost predicate SameStore(order: seq<Id>, manifests: map<Id, Manifest>, records: map<Id, Record>) {
    forall x | x in order && x in manifests && x in records && !records[x].pendingRemove && records[x].dependencies.Some? ::
      records[x].dependencies.value == manifests[x].dependencies
  }

  // Directly after a boot, the closure follows the manifests the boot went by, but only of
  // plugins that can be looked up.
  lemma DesiredGraphIsSame(w: World, configured: seq<Id>, order: seq<Id>, manifests: map<Id, Manifest>,
                           states: map<Id, Status>, records: map<Id, Record>, a: Id, b: Id)
    requires w.Valid() && ManifestsLeft(WithStubs(w, configured), order, manifests, states)
    requires SameStore(order, manifests, records) && a in order
    ensures var running := Running(manifests, states);
      Edge(DesiredGraph(records, running), a, b) <==>
        OnRecord(records, running, a) && a in w.manifests && b in w.SeenManifest(a).dependencies
  {
    hide ValidName;
    hide Strip;
    assert a in w.manifests ==> manifests[a] == w.SeenManifest(a);
    assert a !in w.manifests ==> manifests[a].dependencies == [];
  }

  // The boot orders an installed plugin it cannot use, but does not follow its dependencies.
  // This asks that they be reached otherwise.
  ghost predicate NothingBehindUnsound(w: World, g: Graph, configured: seq<Id>) {
    forall x, d :: Usable(w, configured, x) && x in w.manifests && !w.Sound(x) && Edge(g, x, d) ==> Usable(w, configured, d)
  }

  // The boot follows the dependencies of a plugin that plugin management cannot look up: its
  // name is none a package may have, or its package is being removed or unreadable. This asks
  // that those the boot orders be desired otherwise.
  ghost predicate NothingBehindUnlisted(w: World, records: map<Id, Record>, running: Graph, configured: seq<Id>) {
    forall x, d | Usable(w, configured, x) && !OnRecord(records, running, x) && Edge(w.Dependencies(), x, d) ::
      Present(w, configured, d) ==> Reached(DesiredGraph(records, running), configured, d)
  }

  // The edges of the closure at what is ordered.
  ghost predicate EdgesAfter(w: World, records: map<Id, Record>, running: Graph, order: seq<Id>)
    requires w.Valid()
  {
    forall a, b | a in order ::
      Edge(DesiredGraph(records, running), a, b) <==>
        OnRecord(records, running, a) && a in w.manifests && b in w.SeenManifest(a).dependencies
  }

  lemma SoundEdges(w: World, a: Id, b: Id)
    requires w.Valid() && a in w.manifests
    ensures Edge(w.Dependencies(), a, b) <==> w.Sound(a) && b in w.SeenManifest(a).dependencies
  {}

  lemma AgreeingHoldsBehind(w: World, records: map<Id, Record>, running: Graph, configured: seq<Id>, order: seq<Id>)
    requires forall x :: x in order <==> Usable(w, configured, x) && Present(w, configured, x)
    requires forall x :: x in order <==> Reached(DesiredGraph(records, running), configured, x)
    ensures NothingBehindUnsound(w, DesiredGraph(records, running), configured)
    ensures NothingBehindUnlisted(w, records, running, configured)
  {
    var g := DesiredGraph(records, running);
    hide Usable, Reached, World.Dependencies, World.Sound, OnRecord, DesiredGraph;
    forall x, d | Usable(w, configured, x) && x in w.manifests && Edge(g, x, d) ensures Usable(w, configured, d) {
      EdgeIsReached(g, configured, x, d);
    }
    forall x, d | Usable(w, configured, x) && Edge(w.Dependencies(), x, d) && Present(w, configured, d)
      ensures Reached(g, configured, d)
    {
      UsableEdge(w, configured, x, d);
    }
  }

  lemma NothingBehindIsEnough(w: World, records: map<Id, Record>, running: Graph, configured: seq<Id>, order: seq<Id>)
    requires w.Valid() && EdgesAfter(w, records, running, order)
    requires forall x :: x in order <==> Usable(w, configured, x) && Present(w, configured, x)
    requires AllThere(w, DesiredGraph(records, running), configured)
    requires NothingBehindUnsound(w, DesiredGraph(records, running), configured)
    requires NothingBehindUnlisted(w, records, running, configured)
    ensures NothingOnlyDesired(w, DesiredGraph(records, running), configured)
    ensures NothingOnlyOrdered(w, DesiredGraph(records, running), configured)
  {
    var g := DesiredGraph(records, running);
    hide Usable, Reached, World.Dependencies, World.Sound, World.SeenManifest, World.Valid, OnRecord, DesiredGraph, Edge;
    forall x, d | Usable(w, configured, x) && Reached(g, configured, x) && Edge(g, x, d) ensures Usable(w, configured, d) {
      assert x in order;
      SoundEdges(w, x, d);
      if w.Sound(x) { UsableEdge(w, configured, x, d); }
    }
    forall x, d | Usable(w, configured, x) && !SeenAlike(w, g, x) && Edge(w.Dependencies(), x, d) && Present(w, configured, d)
      ensures Reached(g, configured, d)
    {
      DependentIsInstalled(w, x, d);
      if OnRecord(records, running, x) {
        forall b ensures Edge(w.Dependencies(), x, b) <==> Edge(g, x, b) { SoundEdges(w, x, b); }
      }
    }
  }

  // Directly after a boot both sides agree exactly when everything desired is there and
  // nothing ordered or desired stands only behind a plugin that is unsound, or not listed.
  lemma AgreeAfterBootIff(w: World, strict: bool, failing: set<Id>, registers: set<Id>, configured: seq<Id>,
                          order: seq<Id>, manifests: map<Id, Manifest>, states: map<Id, Status>, records: map<Id, Record>)
    requires BootedFrom(w, strict, failing, registers, configured, order, states)
    requires ManifestsLeft(WithStubs(w, configured), order, manifests, states) && SameStore(order, manifests, records)
    ensures var running := Running(manifests, states);
      var g := DesiredGraph(records, running);
      (forall x :: x in order <==> Reached(g, configured, x)) <==>
        AllThere(w, g, configured) && NothingBehindUnsound(w, g, configured) && NothingBehindUnlisted(w, records, running, configured)
  {
    var running := Running(manifests, states);
    var g := DesiredGraph(records, running);
    assert w.Valid();
    forall a, b | a in order
      ensures Edge(g, a, b) <==> OnRecord(records, running, a) && a in w.manifests && b in w.SeenManifest(a).dependencies
    {
      DesiredGraphIsSame(w, configured, order, manifests, states, records, a, b);
    }
    assert EdgesAfter(w, records, running, order);
    forall x ensures x in order <==> Usable(w, configured, x) && Present(w, configured, x) {
      OrderedIff(w, strict, failing, registers, configured, order, states, x);
    }
    hide *;
    BootLoadsDesiredIff(w, g, strict, failing, registers, configured, order, states);
    if forall x :: x in order <==> Reached(g, configured, x) {
      AgreeingHoldsBehind(w, records, running, configured, order);
    } else if AllThere(w, g, configured) && NothingBehindUnsound(w, g, configured) && NothingBehindUnlisted(w, records, running, configured) {
      NothingBehindIsEnough(w, records, running, configured, order);
    }
  }

  // With every desired or ordered plugin usable and listed, being there is all that counts.
  lemma SoundPluginsAgreeIff(w: World, strict: bool, failing: set<Id>, registers: set<Id>, configured: seq<Id>,
                             order: seq<Id>, manifests: map<Id, Manifest>, states: map<Id, Status>, records: map<Id, Record>)
    requires BootedFrom(w, strict, failing, registers, configured, order, states)
    requires ManifestsLeft(WithStubs(w, configured), order, manifests, states) && SameStore(order, manifests, records)
    requires forall x | x in order && x in w.manifests :: w.Sound(x) && OnRecord(records, Running(manifests, states), x)
    ensures var g := DesiredGraph(records, Running(manifests, states));
      (forall x :: x in order <==> Reached(g, configured, x)) <==> AllThere(w, g, configured)
  {
    var running := Running(manifests, states);
    forall x ensures x in order <==> Usable(w, configured, x) && Present(w, configured, x) {
      OrderedIff(w, strict, failing, registers, configured, order, states, x);
    }
    forall x, d | Edge(w.Dependencies(), x, d) ensures x in w.manifests { DependentIsInstalled(w, x, d); }
    AgreeAfterBootIff(w, strict, failing, registers, configured, order, manifests, states, records);
    hide Usable, Reached, World.Dependencies, World.Sound, OnRecord, DesiredGraph, BootedFrom, ManifestsLeft, AllThere, Running, SameStore;
  }

  /* ----- an installed plugin the boot cannot use ----- */

  // "a" is written for another version of the API and depends on "b"; nothing is packaged.
  function Installed(): World {
    World(map["a" := Manifest("2", ["b"]), "b" := Manifest(API_VERSION, [])], map["a" := Disabled, "b" := Disabled], map[])
  }

  // What a boot with "a" configured leaves.
  function Left(): map<Id, Status> {
    map["a" := Degraded, "b" := Disabled]
  }

  function GraphAfter(): Graph {
    DesiredGraph(map[], Running(Installed().manifests, Left()))
  }

  lemma OneLetterIsName(c: char)
    requires IsAlnum(c)
    ensures ValidName([c])
  {
    assert IsSlug([c]);
    SlugIsTrimmed([c]);
    hide Strip, IsSlug;
  }

  lemma NameFacts()
    ensures "a" != "b" && ValidName("a")
  {
    OneLetterIsName('a');
    hide ValidName;
    assert "a" == ['a'] && "a"[0] != "b"[0];
  }

  lemma RecordFacts()
    ensures Installed().Valid() && Installed().manifests.Keys == Installed().states.Keys == {"a", "b"}
    ensures Installed().entryPoints == map[]
    ensures "a" != "b" ==> Installed().manifests["a"] == Manifest("2", ["b"]) && Installed().manifests["b"] == Manifest(API_VERSION, [])
    ensures Installed().states["a"] == Installed().states["b"] == Disabled
  {}

  lemma OtherVersion()
    ensures API_VERSION != "2"
  {
    assert API_VERSION[0] != "2"[0];
  }

  lemma UseFacts(w: World)
    requires w.manifests.Keys == w.states.Keys == {"a", "b"} && "a" != "b" && w.entryPoints == map[]
    requires w.manifests["a"] == Manifest("2", ["b"]) && w.manifests["b"] == Manifest(API_VERSION, [])
    requires w.states["a"] == w.states["b"] == Disabled && API_VERSION != "2"
    ensures !w.Sound("a") && w.SeenManifest("a").dependencies == ["b"]
    ensures forall a, b :: !Edge(w.Dependencies(), a, b)
    ensures WithStubs(w, ["a"]) == w
  {}

  lemma InstalledFacts()
    ensures "a" != "b" && ValidName("a")
    ensures Installed().Valid() && Installed().manifests.Keys == {"a", "b"} && !Installed().Sound("a")
    ensures Installed().SeenManifest("a").dependencies == ["b"]
    ensures forall a, b :: !Edge(Installed().Dependencies(), a, b)
    ensures WithStubs(Installed(), ["a"]) == Installed()
  {
    NameFacts();
    RecordFacts();
    OtherVersion();
    hide *;
    UseFacts(Installed());
  }

  lemma RunningFacts()
    ensures Running(Installed().manifests, Left()) == map["a" := ["b"], "b" := []]
  {
    assert "a"[0] != "b"[0];
  }

  lemma WithoutPackages(running: Graph, a: Id, b: Id)
    ensures Edge(DesiredGraph(map[], running), a, b) <==> ValidName(a) && Edge(running, a, b)
  {
    hide Strip, IsSlug;
  }

  lemma GraphEdges(a: Id, b: Id)
    ensures Edge(GraphAfter(), a, b) <==> a == "a" && b == "b"
  {
    InstalledFacts();
    RunningFacts();
    hide ValidName, DesiredGraph, Running, Installed, Left;
    WithoutPackages(map["a" := ["b"], "b" := []], a, b);
  }

  lemma NoEdgesReachNothing(g: Graph, roots: seq<Id>, x: Id)
    requires forall a, b :: !Edge(g, a, b)
    ensures Reached(g, roots, x) <==> x in roots
  {
    if Reached(g, roots, x) {
      var r :| r in roots && Reaches(g, r, x);
      if r != x { var _ := LeadsThrough(g, r, x); }
    } else if x in roots {
      RootIsReached(g, roots, x);
    }
  }

  lemma OnlyA()
    requires "a" in Installed().manifests
    ensures Only(["a"], Installed().manifests.Keys) == ["a"]
  {
    hide Installed;
    assert ["a"][..0] == [];
  }

  lemma UnsoundBoots()
    ensures BootedFrom(Installed(), false, {}, {}, ["a"], ["a"], Left())
  {
    InstalledFacts();
    OnlyA();
    var w := Installed();
    LeftIs();
    hide *;
    forall x ensures Reached(w.Dependencies(), ["a"], x) <==> x in ["a"] {
      NoEdgesReachNothing(w.Dependencies(), ["a"], x);
    }
    OneUnsoundBooted(w, "a", Left());
    BootedFromIs(w, false, {}, "a", ["a"], Left());
  }

  lemma LeftIs()
    ensures "a" in Left() && forall x | x in Left() :: Left()[x] != Loaded
  {}

  // One plugin is asked for that cannot be used and leads nowhere.
  lemma OneUnsoundBooted(w: World, a: Id, states: map<Id, Status>)
    requires !w.Sound(a) && a in w.manifests && a in states && forall x | x in states :: states[x] != Loaded
    requires forall x :: Reached(w.Dependencies(), [a], x) <==> x in [a]
    requires forall x, d :: !Edge(w.Dependencies(), x, d)
    ensures Booted(w, false, {}, {}, [a], [a], states)
  {
    if WellFounded(w, {}, {}, a) {
      WellFoundedIsSound(w, {}, {}, a);
      assert false;
    }
    hide World.Sound, World.Dependencies, Reached, WellFounded, Edge;
  }

  lemma BIsDesired()
    ensures Reached(GraphAfter(), ["a"], "b") && AllThere(Installed(), GraphAfter(), ["a"])
  {
    InstalledFacts();
    forall a, b ensures Edge(GraphAfter(), a, b) <==> a == "a" && b == "b" { GraphEdges(a, b); }
    hide GraphAfter, Leads, Reaches, Reached, Installed, World.Valid, World.SeenManifest, ValidName, World.Sound;
    var g := GraphAfter();
    EdgeLeads(g, "a", "b");
    RootIsReached(g, ["a"], "a");
    LeadsReaches(g, "a", "b");
    ReachedStep(g, ["a"], "a", "b");
    forall x | Reached(g, ["a"], x) ensures x in Installed().manifests {
      ReachedInside(g, {"a", "b"}, ["a"], x);
    }
  }

  lemma LeadsReaches(g: Graph, a: Id, b: Id)
    requires Leads(g, a, b)
    ensures Reaches(g, a, b)
  {}

  // The records the boot leaves are its own.
  lemma RecordsLeft()
    ensures ManifestsLeft(WithStubs(Installed(), ["a"]), ["a"], Installed().manifests, Left())
    ensures SameStore(["a"], Installed().manifests, map[])
  {
    InstalledFacts();
    RecordFacts();
    assert "a"[0] != "b"[0];
    hide World.Sound, World.Dependencies, World.Valid, Installed, WithStubs;
    assert Installed().SeenManifest("a") == Installed().manifests["a"];
  }

  // All that is desired is installed, and still the boot never orders the dependency of the
  // plugin it cannot use.
  lemma UnsoundPluginKeepsThemApart()
    ensures BootedFrom(Installed(), false, {}, {}, ["a"], ["a"], Left())
    ensures ManifestsLeft(WithStubs(Installed(), ["a"]), ["a"], Installed().manifests, Left())
    ensures AllThere(Installed(), GraphAfter(), ["a"])
    ensures NothingBehindUnlisted(Installed(), map[], Running(Installed().manifests, Left()), ["a"])
    ensures Reached(GraphAfter(), ["a"], "b") && "b" !in ["a"]
    ensures !NothingBehindUnsound(Installed(), GraphAfter(), ["a"])
  {
    hide *;
    UnsoundBoots();
    RecordsLeft();
    BIsDesired();
    var order := ["a"];
    assert "a"[0] != "b"[0];
    assert forall a, b :: !Edge(Installed().Dependencies(), a, b) by { InstalledFacts(); }
    assert NothingBehindUnlisted(Installed(), map[], Running(Installed().manifests, Left()), ["a"]) by {
      NoEdgesBehind(Installed(), map[], Running(Installed().manifests, Left()), ["a"]);
    }
    AgreeAfterBootIff(Installed(), false, {}, {}, ["a"], order, Installed().manifests, Left(), map[]);
    assert GraphAfter() == DesiredGraph(map[], Running(Installed().manifests, Left())) by { GraphAfterIs(); }
  }

  lemma GraphAfterIs()
    ensures GraphAfter() == DesiredGraph(map[], Running(Installed().manifests, Left()))
  {}

  lemma NoEdgesBehind(w: World, records: map<Id, Record>, running: Graph, configured: seq<Id>)
    requires forall a, b :: !Edge(w.Dependencies(), a, b)
    ensures NothingBehindUnlisted(w, records, running, configured)
  {
    hide Edge, Usable, World.Dependencies, OnRecord, DesiredGraph, Reached;
  }

  /* ----- an entry point whose name no package may have ----- */

  // m is an entry point that, once imported, depends on the installed b.
  function Importing(m: Id, b: Id): World {
    World(map[m := STUB, b := STUB], map[m := Disabled, b := Disabled], map[m := Provides(m, Manifest(API_VERSION, [b]))])
  }

  function Imports(m: Id, b: Id): map<Id, Manifest> {
    map[m := Manifest(API_VERSION, [b]), b := STUB]
  }

  function BothLoaded(m: Id, b: Id): map<Id, Status> {
    map[m := Loaded, b := Loaded]
  }

  lemma ImportingFacts(m: Id, b: Id)
    requires m != b
    ensures var w := Importing(m, b);
      && w.Valid() && w.manifests.Keys == {m, b} && w.Sound(m) && w.Sound(b) && WithStubs(w, [m]) == w
      && w.SeenManifest(m) == Imports(m, b)[m] && w.SeenManifest(b) == Imports(m, b)[b] && STUB.dependencies == []
      && forall x, d :: Edge(w.Dependencies(), x, d) <==> x == m && d == b
  {}

  lemma OnlyThisOne(m: Id, known: set<Id>)
    requires m in known
    ensures Only([m], known) == [m]
  {
    assert [m][..0] == [];
  }

  lemma OneEdgeReaches(g: Graph, m: Id, b: Id)
    requires m != b && forall x, d :: Edge(g, x, d) <==> x == m && d == b
    ensures forall x :: Reached(g, [m], x) <==> x == m || x == b
    ensures forall x :: Reaches(g, m, x) <==> x == m || x == b
    ensures forall x :: Reaches(g, b, x) <==> x == b
    ensures !OnCycle(g, m) && !OnCycle(g, b)
  {
    EdgeLeads(g, m, b);
    forall x | Leads(g, b, x) ensures false {
      var _ := LeadsThrough(g, b, x);
    }
    forall x | Leads(g, m, x) ensures x == b {
      var d := LeadsThrough(g, m, x);
      assert d == b;
    }
    hide Leads;
    assert m in [m];
  }

  lemma DependencyFirst(w: World, m: Id, b: Id, strict: bool)
    requires m != b && forall x, d :: Edge(w.Dependencies(), x, d) <==> x == m && d == b
    ensures DependenciesFirst(w, strict, [b, m]) && NoDuplicates([b, m])
  {
    hide Edge, World.Dependencies;
    assert [b, m][..1] == [b];
  }

  lemma BothWellFounded(w: World, m: Id, b: Id)
    requires m != b && (forall x, d :: Edge(w.Dependencies(), x, d) <==> x == m && d == b) && w.Sound(m) && w.Sound(b)
    ensures WellFounded(w, {}, {m, b}, m) && WellFounded(w, {}, {m, b}, b)
  {
    OneEdgeReaches(w.Dependencies(), m, b);
    hide Reaches, Edge, OnCycle, World.Sound, World.Dependencies;
  }

  lemma ImportingBoots(m: Id, b: Id, strict: bool)
    requires m != b
    ensures BootedFrom(Importing(m, b), strict, {}, {m, b}, [m], [b, m], BothLoaded(m, b))
  {
    ImportingFacts(m, b);
    var w := Importing(m, b);
    OnlyThisOne(m, w.manifests.Keys);
    OneEdgeReaches(w.Dependencies(), m, b);
    DependencyFirst(w, m, b, strict);
    BothWellFounded(w, m, b);
    hide *;
    assert BothLoaded(m, b) == map[m := Loaded, b := Loaded] by { BothAre(m, b); }
    TwoBooted(w, strict, m, b, BothLoaded(m, b));
    assert BootedFrom(w, strict, {}, {m, b}, [m], [b, m], BothLoaded(m, b)) by { BootedFromIs(w, strict, {m, b}, m, [b, m], BothLoaded(m, b)); }
  }

  lemma BothAre(m: Id, b: Id)
    ensures BothLoaded(m, b) == map[m := Loaded, b := Loaded]
  {}

  lemma BootedFromIs(w: World, strict: bool, registers: set<Id>, m: Id, order: seq<Id>, states: map<Id, Status>)
    requires w.Valid() && WithStubs(w, [m]) == w && Only([m], w.manifests.Keys) == [m]
    requires Booted(w, strict, {}, registers, [m], order, states)
    ensures BootedFrom(w, strict, {}, registers, [m], order, states)
  {
    hide Booted, WithStubs, Only, World.Valid;
  }

  lemma TwoBooted(w: World, strict: bool, m: Id, b: Id, states: map<Id, Status>)
    requires w.manifests.Keys == {m, b} && states == map[m := Loaded, b := Loaded]
    requires NoDuplicates([b, m]) && DependenciesFirst(w, strict, [b, m])
    requires forall x :: Reached(w.Dependencies(), [m], x) <==> x == m || x == b
    requires WellFounded(w, {}, {m, b}, m) && WellFounded(w, {}, {m, b}, b)
    ensures Booted(w, strict, {}, {m, b}, [m], [b, m], states)
  {
    hide Reached, WellFounded, World.Dependencies, NoDuplicates, DependenciesFirst;
  }

  // Plugin management cannot look m up, so that it sees no dependencies at all.
  lemma NothingSeen(m: Id, b: Id)
    requires m != b && !ValidName(m)
    ensures forall x, d :: !Edge(DesiredGraph(map[], Running(Imports(m, b), BothLoaded(m, b))), x, d)
    ensures !OnRecord(map[], Running(Imports(m, b), BothLoaded(m, b)), m)
  {
    hide ValidName;
  }

  lemma ImportsLeft(m: Id, b: Id)
    requires m != b
    ensures ManifestsLeft(WithStubs(Importing(m, b), [m]), [b, m], Imports(m, b), BothLoaded(m, b))
    ensures SameStore([b, m], Imports(m, b), map[])
  {
    ImportingFacts(m, b);
    hide WithStubs, World.SeenManifest;
  }

  // The boot orders, and loads, the dependency of an entry point whose name is no name of a
  // package; it never becomes desired, although all that is desired is there and sound.
  lemma UnlistedPluginKeepsThemApart(m: Id, b: Id, strict: bool)
    requires m != b && !ValidName(m)
    ensures BootedFrom(Importing(m, b), strict, {}, {m, b}, [m], [b, m], BothLoaded(m, b))
    ensures ManifestsLeft(WithStubs(Importing(m, b), [m]), [b, m], Imports(m, b), BothLoaded(m, b))
    ensures var running := Running(Imports(m, b), BothLoaded(m, b));
      var g := DesiredGraph(map[], running);
      && AllThere(Importing(m, b), g, [m]) && NothingBehindUnsound(Importing(m, b), g, [m])
      && !NothingBehindUnlisted(Importing(m, b), map[], running, [m])
      && b in [b, m] && !Reached(g, [m], b)
  {
    var running := Running(Imports(m, b), BothLoaded(m, b));
    var g := DesiredGraph(map[], running);
    ImportingBoots(m, b, strict);
    ImportsLeft(m, b);
    ImportingFacts(m, b);
    NothingSeen(m, b);
    hide *;
    NothingDesiredBelow(Importing(m, b), g, m, b);
    SomethingIsBehind(Importing(m, b), strict, {m, b}, [m], [b, m], Imports(m, b), BothLoaded(m, b), map[], b);
  }

  // When the two differ on b, and two of the conditions hold, the third one does not.
  lemma SomethingIsBehind(w: World, strict: bool, registers: set<Id>, configured: seq<Id>,
                          order: seq<Id>, manifests: map<Id, Manifest>, states: map<Id, Status>, records: map<Id, Record>, b: Id)
    requires BootedFrom(w, strict, {}, registers, configured, order, states)
    requires ManifestsLeft(WithStubs(w, configured), order, manifests, states) && SameStore(order, manifests, records)
    requires var g := DesiredGraph(records, Running(manifests, states));
      AllThere(w, g, configured) && NothingBehindUnsound(w, g, configured) && b in order && !Reached(g, configured, b)
    ensures !NothingBehindUnlisted(w, records, Running(manifests, states), configured)
  {
    hide *;
    AgreeAfterBootIff(w, strict, {}, registers, configured, order, manifests, states, records);
  }

  lemma NothingDesiredBelow(w: World, g: Graph, m: Id, b: Id)
    requires m in w.manifests && m != b && forall x, d :: !Edge(g, x, d)
    ensures AllThere(w, g, [m]) && NothingBehindUnsound(w, g, [m]) && !Reached(g, [m], b)
  {
    hide Reached, Edge, Usable, World.Sound;
    forall x ensures Reached(g, [m], x) <==> x in [m] { NoEdgesReachNothing(g, [m], x); }
  }

  // For instance this one.
  lemma UpperCaseIsNoName()
    ensures !ValidName("My_Ext") && Strip("My_Ext") == "My_Ext" && "My_Ext" != "b"
  {
    StripIsTrimmed("My_Ext");
    hide Strip;
    assert "My_Ext"[0] == 'M' && "b"[0] == 'b';
  }
}
