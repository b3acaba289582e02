/**
 The dependency walk of the extension manager on values: what is installed, the state of a
 walk, what every reachable state of the walk satisfies, and the single steps.
 */
module ExtensionWalk {
  import opened DependencyGraph
  import opened Outcomes
  import opened Sequences

  datatype Status = Disabled | Discovered | Loaded | Starting | Running | Degraded | Blocked | Missing

  const API_VERSION := "1"

  datatype Manifest = Manifest(apiVersion: string, dependencies: seq<Id>)

  // Stands in for an id that is configured or depended upon but not installed.
  const STUB := Manifest(API_VERSION, [])

  // What importing an entry point gives: an exception, or an extension with its own manifest.
  datatype EntryPoint = ImportFails | Provides(extensionId: Id, manifest: Manifest)

  // What discovery and the configuration leave behind before dependencies are resolved.
  datatype World = World(manifests: map<Id, Manifest>, states: map<Id, Status>, entryPoints: map<Id, EntryPoint>)
  {
    ghost predicate Valid() {
      && states.Keys == manifests.Keys
      && entryPoints.Keys <= manifests.Keys
      && forall x | x in states :: states[x] in {Disabled, Degraded, Missing}
    }

    // The manifest in force once the entry point, if any, has been imported under its own id.
    function Imported(x: Id): Option<Manifest>
      requires x in manifests
    {
      if x !in entryPoints then Some(manifests[x])
      else match entryPoints[x]
        case ImportFails => None
        case Provides(id, m) => if id == x then Some(m) else None
    }

    // Installed, not degraded during discovery, importable, of the right API version.
    predicate Sound(x: Id) {
      && x in manifests && x in states
      && states[x] != Degraded
      && Imported(x).Some?
      && Imported(x).value.apiVersion == API_VERSION
    }

    function Dependencies(): Graph {
      map x | x in manifests && Sound(x) :: Imported(x).value.dependencies
    }

    // The fields of x once the walk has looked at it.
    function SeenManifest(x: Id): Manifest
      requires x in manifests && x in states
    {
      if states[x] != Degraded && Imported(x).Some? then Imported(x).value else manifests[x]
    }

    predicate SeenExtension(x: Id)
      requires x in manifests && x in states
    {
      states[x] != Degraded && x in entryPoints && Imported(x).Some?
    }

    function LeftStatus(x: Id): Status
      requires x in states
    {
      if states[x] == Disabled then Discovered else states[x]
    }
  }

  // The mutable state of a walk.
  datatype Walk = Walk(
    manifests: map<Id, Manifest>, states: map<Id, Status>, extensions: set<Id>,
    order: seq<Id>, visiting: set<Id>, visited: set<Id>)

  // What the walk has done to one known id.
  ghost predicate NodeOK(w: World, k: Walk, x: Id)
    requires w.Valid() && x in k.manifests && x in k.states
  {
    if x !in w.manifests then
      x in k.visited && x !in k.extensions && k.manifests[x] == STUB && k.states[x] == Missing
    else if x !in k.visited && x !in k.visiting then
      x !in k.extensions && k.manifests[x] == w.manifests[x] && k.states[x] == w.states[x]
    else
      && k.manifests[x] == w.SeenManifest(x)
      && (x in k.extensions <==> w.SeenExtension(x))
      && (if !w.Sound(x) then k.states[x] == Degraded
          else
            || k.states[x] == (if x in k.visiting then w.states[x] else w.LeftStatus(x))
            || (k.states[x] == Degraded && OnCycle(w.Dependencies(), x)))
  }

  // The dependencies of the i-th id come before it, unless they are not installed or the
  // edge closes a cycle. A strict walk allows neither exception.
  ghost predicate FirstAt(w: World, strict: bool, order: seq<Id>, i: nat)
    requires i < |order|
  {
    forall d | Edge(w.Dependencies(), order[i], d) ::
      d in order[..i] || (!strict && (d !in w.manifests || Leads(w.Dependencies(), d, order[i])))
  }

  ghost predicate DependenciesFirst(w: World, strict: bool, order: seq<Id>) {
    forall i: nat | i < |order| :: FirstAt(w, strict, order, i)
  }

  // The dependencies of x have been finished, or are still being visited.
  ghost predicate Explored(w: World, strict: bool, visiting: set<Id>, visited: set<Id>, x: Id) {
    forall d | Edge(w.Dependencies(), x, d) :: d in visited || (!strict && d in visiting)
  }

  // Everything looked at has a record that says what was found.
  ghost predicate RecordsOK(w: World, k: Walk) {
    && w.Valid()
    && k.manifests.Keys == k.states.Keys == w.manifests.Keys + k.visited
    && k.extensions <= w.manifests.Keys
    && forall x | x in k.manifests :: NodeOK(w, k, x)
  }

  // The order lists the installed nodes that are finished, dependencies first.
  ghost predicate OrderOK(w: World, strict: bool, k: Walk) {
    && k.visiting !! k.visited
    && (forall x | x in k.visiting :: w.Sound(x))
    && NoDuplicates(k.order)
    && (forall x :: x in k.order <==> x in k.visited && x in w.manifests)
    && (forall x | x in k.visited :: Explored(w, strict, k.visiting, k.visited, x))
    && DependenciesFirst(w, strict, k.order)
    && (strict ==> forall x | x in k.visited :: w.Sound(x))
  }

  ghost predicate WalkOK(w: World, strict: bool, k: Walk) {
    RecordsOK(w, k) && OrderOK(w, strict, k)
  }

  // Between entering and leaving a node nothing is taken back.
  ghost predicate Grown(old': Walk, k: Walk) {
    k.visiting == old'.visiting && old'.visited <= k.visited && old'.order <= k.order
  }

  /* ----- the steps ----- */

  ghost predicate SameRecord(k: Walk, k': Walk, y: Id)
    requires y in k.manifests && y in k.states && y in k'.manifests && y in k'.states
  {
    && k.manifests[y] == k'.manifests[y] && k.states[y] == k'.states[y]
    && (y in k.extensions <==> y in k'.extensions)
    && (y in k.visited <==> y in k'.visited) && (y in k.visiting <==> y in k'.visiting)
  }

  lemma SameNode(w: World, k: Walk, k': Walk, y: Id)
    requires w.Valid() && y in k.manifests && y in k.states && y in k'.manifests && y in k'.states
    requires NodeOK(w, k, y) && SameRecord(k, k', y)
    ensures NodeOK(w, k', y)
  {}

  // A step that touches the record of x only.
  lemma OneRecord(w: World, k: Walk, k': Walk, x: Id)
    requires RecordsOK(w, k)
    requires k'.manifests.Keys == k'.states.Keys == w.manifests.Keys + k'.visited && k'.extensions <= w.manifests.Keys
    requires x in k'.manifests && k'.manifests.Keys <= k.manifests.Keys + {x}
    requires forall y | y in k'.manifests && y != x :: SameRecord(k, k', y)
    requires NodeOK(w, k', x)
    ensures RecordsOK(w, k')
  {
    hide NodeOK, SameRecord;
    forall y | y in k'.manifests ensures NodeOK(w, k', y) {
      if y != x { SameNode(w, k, k', y); }
    }
  }

  // A node on the current path is met again: a cycle.
  lemma MarkCycle(w: World, k: Walk, x: Id)
    requires WalkOK(w, false, k) && x in k.visiting && OnCycle(w.Dependencies(), x)
    ensures x in k.manifests
    ensures WalkOK(w, false, k.(states := k.states[x := Degraded]))
  {
    var k' := k.(states := k.states[x := Degraded]);
    assert w.Sound(x);
    assert OrderOK(w, false, k');
    hide OrderOK;
    assert NodeOK(w, k, x);
    OneRecord(w, k, k', x);
  }

  lemma NoEdges(w: World, x: Id)
    requires !w.Sound(x)
    ensures forall d :: !Edge(w.Dependencies(), x, d)
  {}

  function StubAdded(k: Walk, x: Id): Walk {
    k.(manifests := k.manifests[x := STUB], states := k.states[x := Missing], visited := k.visited + {x})
  }

  // A dependency that is not installed gets a stub, and no place in the order.
  lemma AddStub(w: World, k: Walk, x: Id)
    requires WalkOK(w, false, k) && x !in k.manifests
    ensures WalkOK(w, false, StubAdded(k, x))
    ensures x !in k.visited && x !in k.visiting
  {
    StubRecorded(w, k, x);
    hide RecordsOK;
    forall s | s in k.visiting ensures s in w.manifests { assert w.Sound(s); }
    StubKeepsOrder(w, k, x);
    hide OrderOK;
  }

  lemma StubKeepsOrder(w: World, k: Walk, x: Id)
    requires OrderOK(w, false, k) && x !in w.manifests && x !in k.visited && x !in k.visiting
    ensures OrderOK(w, false, StubAdded(k, x))
  {
    Widen(w, false, k.visiting, k.visited, k.visiting, k.visited + {x}, x);
    hide World.Sound, World.Dependencies, DependenciesFirst, NoDuplicates;
  }

  lemma StubRecorded(w: World, k: Walk, x: Id)
    requires RecordsOK(w, k) && x !in k.manifests
    ensures RecordsOK(w, StubAdded(k, x)) && x !in w.manifests && x !in k.visited
  {
    OneRecord(w, k, StubAdded(k, x), x);
  }

  // What looking at an installed id leaves of its manifest and extension.
  function Seen(w: World, k: Walk, x: Id): Walk
    requires x in w.manifests && x in w.states
  {
    k.(manifests := k.manifests[x := w.SeenManifest(x)],
       extensions := if w.SeenExtension(x) then k.extensions + {x} else k.extensions)
  }

  // Exploration is not undone when nodes are entered or finished.
  lemma Widen(w: World, strict: bool, visiting: set<Id>, visited: set<Id>, visiting': set<Id>, visited': set<Id>, x: Id)
    requires forall y | y in visited :: Explored(w, strict, visiting, visited, y)
    requires visited' == visited || visited' == visited + {x}
    requires visited <= visited' && visiting <= visiting' + visited'
    requires x in visited' ==> Explored(w, strict, visiting', visited', x)
    ensures forall y | y in visited' :: Explored(w, strict, visiting', visited', y)
  {
    hide Edge, World.Dependencies;
    forall y | y in visited' ensures Explored(w, strict, visiting', visited', y) {
      if y != x { assert Explored(w, strict, visiting, visited, y); }
    }
  }

  lemma AppendFirst(w: World, strict: bool, order: seq<Id>, x: Id)
    requires DependenciesFirst(w, strict, order) && FirstAt(w, strict, order + [x], |order|)
    ensures DependenciesFirst(w, strict, order + [x])
  {
    hide Edge, Leads, World.Dependencies;
    var longer := order + [x];
    forall i: nat | i < |longer| ensures FirstAt(w, strict, longer, i) {
      if i < |order| {
        assert longer[i] == order[i] && longer[..i] == order[..i];
        assert FirstAt(w, strict, order, i);
      }
    }
  }

  // Finishing one more node keeps the order: its dependencies have been dealt with, or
  // close a cycle.
  lemma Finish(w: World, strict: bool, k: Walk, k': Walk, x: Id)
    requires OrderOK(w, strict, k) && x in w.manifests && x !in k.visited
    requires k'.order == k.order + [x] && k'.visited == k.visited + {x} && k'.visiting == k.visiting - {x}
    requires strict ==> w.Sound(x)
    requires forall d | Edge(w.Dependencies(), x, d) ::
               d in k.visited || (!strict && d in k.visiting && Leads(w.Dependencies(), d, x))
    ensures OrderOK(w, strict, k')
  {
    hide Edge, Leads, World.Dependencies;
    Widen(w, strict, k.visiting, k.visited, k'.visiting, k'.visited, x);
    assert k'.order[..|k.order|] == k.order && k'.order[|k.order|] == x;
    assert FirstAt(w, strict, k'.order, |k.order|);
    AppendFirst(w, strict, k.order, x);
  }

  function FaultyTaken(w: World, k: Walk, x: Id): Walk
    requires x in w.manifests && x in w.states
  {
    var seen := Seen(w, k, x);
    seen.(states := seen.states[x := Degraded], order := k.order + [x], visited := k.visited + {x})
  }

  // An installed id that cannot be used is degraded and ordered; its dependencies are not
  // looked at.
  lemma TakeFaulty(w: World, k: Walk, x: Id)
    requires WalkOK(w, false, k) && x in w.manifests && !w.Sound(x) && x !in k.visited && x !in k.visiting
    ensures WalkOK(w, false, FaultyTaken(w, k, x))
  {
    NoEdges(w, x);
    Finish(w, false, k, FaultyTaken(w, k, x), x);
    FaultyRecorded(w, k, x);
    hide RecordsOK, OrderOK;
  }

  lemma FaultyRecorded(w: World, k: Walk, x: Id)
    requires RecordsOK(w, k) && x in w.manifests && !w.Sound(x) && x !in k.visited && x !in k.visiting
    ensures RecordsOK(w, FaultyTaken(w, k, x))
  {
    assert NodeOK(w, k, x);
    OneRecord(w, k, FaultyTaken(w, k, x), x);
  }

  function Entered(w: World, k: Walk, x: Id): Walk
    requires x in w.manifests && x in w.states
  {
    Seen(w, k, x).(visiting := k.visiting + {x})
  }

  lemma Enter(w: World, strict: bool, k: Walk, x: Id)
    requires WalkOK(w, strict, k) && w.Sound(x) && x !in k.visited && x !in k.visiting
    ensures WalkOK(w, strict, Entered(w, k, x))
  {
    Widen(w, strict, k.visiting, k.visited, k.visiting + {x}, k.visited, x);
    EnteredRecorded(w, k, x);
    hide RecordsOK;
  }

  lemma EnteredRecorded(w: World, k: Walk, x: Id)
    requires RecordsOK(w, k) && w.Sound(x) && x !in k.visited && x !in k.visiting
    ensures RecordsOK(w, Entered(w, k, x))
  {
    assert NodeOK(w, k, x);
    OneRecord(w, k, Entered(w, k, x), x);
  }

  function Left(k: Walk, x: Id): Walk
    requires x in k.states
  {
    k.(states := if k.states[x] == Disabled then k.states[x := Discovered] else k.states,
       order := k.order + [x], visiting := k.visiting - {x}, visited := k.visited + {x})
  }

  lemma Leave(w: World, strict: bool, k: Walk, x: Id)
    requires WalkOK(w, strict, k) && x in k.visiting
    requires forall d | Edge(w.Dependencies(), x, d) ::
               d in k.visited || (!strict && d in k.visiting && Leads(w.Dependencies(), d, x))
    ensures x in k.states && WalkOK(w, strict, Left(k, x))
  {
    assert w.Sound(x) && x !in k.visited;
    LeftRecorded(w, k, x);
    Finish(w, strict, k, Left(k, x), x);
    hide RecordsOK, OrderOK;
  }

  lemma LeftRecorded(w: World, k: Walk, x: Id)
    requires RecordsOK(w, k) && x in k.visiting && x !in k.visited && w.Sound(x)
    ensures x in k.states && RecordsOK(w, Left(k, x))
  {
    assert NodeOK(w, k, x);
    OneRecord(w, k, Left(k, x), x);
  }

  // A known id the walk has not touched is as discovery left it.
  lemma UntouchedRecord(w: World, strict: bool, k: Walk, x: Id)
    requires WalkOK(w, strict, k) && x !in k.visited
    ensures x in k.manifests <==> x in w.manifests
    ensures x in w.manifests ==> x in w.states && x in k.states
    ensures x in w.manifests && x !in k.visiting ==>
              k.manifests[x] == w.manifests[x] && k.states[x] == w.states[x] && x !in k.extensions
    ensures x in k.visiting ==> x in k.manifests
  {
    if x in k.visiting { assert w.Sound(x); }
    if x in w.manifests { assert NodeOK(w, k, x); }
  }

  lemma KeysMatch(w: World, strict: bool, k: Walk)
    requires WalkOK(w, strict, k)
    ensures k.states.Keys == k.manifests.Keys == w.manifests.Keys + k.visited && w.states.Keys == w.manifests.Keys
    ensures k.visiting !! k.visited
  {}

  // A node on the path has been imported.
  lemma EnteredRecord(w: World, strict: bool, k: Walk, x: Id)
    requires WalkOK(w, strict, k) && x in k.visiting
    ensures x in k.manifests && x in w.Dependencies() && k.manifests[x].dependencies == w.Dependencies()[x]
  {
    assert w.Sound(x) && NodeOK(w, k, x);
  }

  lemma UnchangedMaps<V>(m: map<Id, V>, x: Id)
    requires x in m
    ensures m[x := m[x]] == m
  {}
}
