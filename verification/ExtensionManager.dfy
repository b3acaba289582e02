/**
 The extension manager up to the point where extensions are loaded: resolving the enabled
 ids, walking their dependencies depth first, and the load pass over the resulting order.
 */
module ExtensionManagement {
  import opened DependencyGraph
  import opened Outcomes
  import opened ExtensionWalk
  import opened ExtensionLoading
  import opened LoadOrder
  import opened PythonStrings
  import opened Sequences

  // Something reachable from x that a strict start-up refuses.
  ghost predicate Refused(w: World, x: Id) {
    exists y :: Reaches(w.Dependencies(), x, y) && (!w.Sound(y) || OnCycle(w.Dependencies(), y))
  }

  // Everything the walk has added is reachable from x.
  ghost predicate FoundFrom(w: World, before: Walk, after: Walk, x: Id) {
    && Grown(before, after)
    && forall y | y in after.visited && y !in before.visited :: Reaches(w.Dependencies(), x, y)
  }

  // The walk from before to after has gone depth first through xs, with these ids met and
  // finished.
  ghost predicate Went(before: Walk, after: Walk, r: (set<Id>, seq<Id>)) {
    after.visiting + after.visited == r.0 && after.order == before.order + r.1
  }

  ghost function VisitFrom(w: World, universe: set<Id>, k: Walk, x: Id): (set<Id>, seq<Id>) {
    Visited(w.Dependencies(), w.manifests.Keys, universe, x, k.visiting + k.visited)
  }

  ghost function VisitAllFrom(w: World, universe: set<Id>, k: Walk, xs: seq<Id>): (set<Id>, seq<Id>) {
    VisitedAll(w.Dependencies(), w.manifests.Keys, universe, xs, k.visiting + k.visited)
  }

  // Of the ids xs the first i have been visited.
  ghost predicate Going(w: World, universe: set<Id>, before: Walk, k: Walk, xs: seq<Id>, i: nat)
    requires i <= |xs|
  {
    var all, rest := VisitAllFrom(w, universe, before, xs), VisitAllFrom(w, universe, k, xs[i..]);
    all.0 == rest.0 && before.order + all.1 == k.order + rest.1
  }

  lemma WentNowhere(w: World, universe: set<Id>, k: Walk, k': Walk, x: Id)
    requires (x in k.visiting || x in k.visited) && k'.order == k.order && k'.visiting == k.visiting && k'.visited == k.visited
    ensures Went(k, k', VisitFrom(w, universe, k, x))
  {}

  // An id without dependencies: not installed, or not to be used.
  lemma WentToLeaf(w: World, universe: set<Id>, k: Walk, k': Walk, x: Id)
    requires x in universe && x !in k.visiting && x !in k.visited && x !in w.Dependencies()
    requires k'.order == k.order + (if x in w.manifests then [x] else []) && k'.visiting == k.visiting && k'.visited == k.visited + {x}
    ensures Went(k, k', VisitFrom(w, universe, k, x))
  {
    VisitedLast(w.Dependencies(), w.manifests.Keys, universe, x, k.visiting + k.visited);
    assert k'.visiting + k'.visited == k.visiting + k.visited + {x};
  }

  lemma WentThrough(w: World, universe: set<Id>, k: Walk, inside: Walk, last: Walk, k': Walk, x: Id)
    requires x in universe && x !in k.visiting && x !in k.visited && x in w.Dependencies() && x in w.manifests
    requires inside.visiting == k.visiting + {x} && inside.visited == k.visited && inside.order == k.order
    requires Went(inside, last, VisitAllFrom(w, universe, inside, w.Dependencies()[x]))
    requires k'.visiting == last.visiting - {x} && k'.visited == last.visited + {x} && k'.order == last.order + [x]
    requires x in last.visiting
    ensures Went(k, k', VisitFrom(w, universe, k, x))
  {
    hide World.Dependencies;
    VisitedLast(w.Dependencies(), w.manifests.Keys, universe, x, k.visiting + k.visited);
    assert inside.visiting + inside.visited == k.visiting + k.visited + {x};
    assert k'.visiting + k'.visited == last.visiting + last.visited;
    hide VisitedAll, Visited;
  }

  lemma GoingFirst(w: World, universe: set<Id>, k: Walk, xs: seq<Id>)
    ensures Going(w, universe, k, k, xs, 0)
  {
    assert xs[0..] == xs;
  }

  lemma GoingNext(w: World, universe: set<Id>, before: Walk, k: Walk, k': Walk, xs: seq<Id>, i: nat)
    requires i < |xs| && Going(w, universe, before, k, xs, i) && Went(k, k', VisitFrom(w, universe, k, xs[i]))
    ensures Going(w, universe, before, k', xs, i + 1)
  {
    VisitedNext(w.Dependencies(), w.manifests.Keys, universe, xs, i, k.visiting + k.visited);
    var one, others := VisitFrom(w, universe, k, xs[i]), VisitAllFrom(w, universe, k', xs[i + 1..]);
    assert VisitAllFrom(w, universe, k, xs[i..]) == (others.0, one.1 + others.1);
    hide VisitFrom, VisitAllFrom;
    assert k.order + (one.1 + others.1) == (k.order + one.1) + others.1;
  }

  lemma WentAll(w: World, universe: set<Id>, start: Walk, k: Walk, requested: seq<Id>)
    requires Went(start, k, VisitAllFrom(w, universe, start, requested))
    requires start.order == [] && start.visiting == {} && start.visited == {} && universe == w.manifests.Keys + Targets(w.Dependencies())
    ensures k.order == Finished(w.Dependencies(), w.manifests.Keys, requested)
  {
    assert start.visiting + start.visited == {};
    hide World.Dependencies, VisitedAll;
  }

  lemma NoDependencies(w: World, x: Id)
    requires Unsound(w, x)
    ensures x !in w.Dependencies()
  {}

  lemma GoingLast(w: World, universe: set<Id>, before: Walk, k: Walk, xs: seq<Id>)
    requires Going(w, universe, before, k, xs, |xs|)
    ensures Went(before, k, VisitAllFrom(w, universe, before, xs))
  {
    assert xs[|xs|..] == [];
  }

  class ExtensionManager {
    const strict: bool
    const entryPoints: map<Id, EntryPoint>

    var manifests: map<Id, Manifest>
    var states: map<Id, Status>
    var extensions: set<Id>
    var loadOrder: seq<Id>

    // the walk that resolves dependencies
    var order: seq<Id>
    var visiting: set<Id>
    var visited: set<Id>

    // what the walk started from, and all ids it can meet
    ghost var world: World
    ghost var universe: set<Id>

    ghost function State(): Walk
      reads this
    {
      Walk(manifests, states, extensions, order, visiting, visited)
    }

    ghost function Snapshot(): World
      reads this
    {
      World(manifests, states, entryPoints)
    }

    ghost predicate Walking()
      reads this
    {
      && WalkOK(world, strict, State())
      && world.entryPoints == entryPoints
      && world.manifests.Keys <= universe
      && forall a, b :: Edge(world.Dependencies(), a, b) ==> b in universe
    }

    // The nodes the walk has not touched yet, which is what makes it terminate.
    ghost function Untouched(): set<Id>
      reads this
    {
      universe - visiting - visited
    }

    method ImportEntryPoint(x: Id) returns (ok: bool)
      requires Walking() && x in world.manifests && x !in visiting && x !in visited && states[x] != Degraded
      modifies this`manifests, this`extensions
      ensures x in world.states && ok == world.Imported(x).Some?
      ensures State() == Seen(world, old(State()), x)
      // an id without entry point is left as it is; another one must bring its own id
      ensures ok <==> x !in entryPoints || (entryPoints[x].Provides? && entryPoints[x].extensionId == x)
      ensures manifests == if x in entryPoints && ok then old(manifests)[x := entryPoints[x].manifest] else old(manifests)
      ensures extensions == if x in entryPoints && ok then old(extensions) + {x} else old(extensions)
    {
      UntouchedRecord(world, strict, State(), x);
      UnchangedMaps(manifests, x);
      ok := true;
      if x in entryPoints && x !in extensions {
        match entryPoints[x]
        case ImportFails =>
          ok := false;
        case Provides(id, m) =>
          if id == x {
            manifests := manifests[x := m];
            extensions := extensions + {x};
          } else {
            ok := false;
          }
      }
    }

    // The recursive visit of the walk. A strict manager raises (returns false) on a cycle,
    // on a dependency that is not installed and on one that is degraded.
    method Visit(x: Id) returns (ok: bool)
      requires Walking() && x in universe
      requires forall s | s in visiting :: Leads(world.Dependencies(), s, x)
      modifies this`manifests, this`states, this`extensions, this`order, this`visiting, this`visited
      ensures ok ==> Walking() && FoundFrom(world, old(State()), State(), x)
      ensures ok ==> x in visited || (!strict && x in visiting)
      ensures ok ==> Went(old(State()), State(), VisitFrom(world, universe, old(State()), x))
      ensures !ok ==> strict && Refused(world, x)
      decreases |Untouched()|, 0, 1
    {
      hide WalkOK, Refused, World.Sound, World.Dependencies, Leads, Reaches, OnCycle, Went, VisitFrom;
      ghost var before := State();
      KeysMatch(world, strict, before);
      if x in visited {
        WentNowhere(world, universe, before, before, x);
        return true;
      }
      UntouchedRecord(world, strict, before, x);
      if x in visiting {
        if strict {
          RefusedCycle(world, x);
          return false;
        }
        MeetsItself(world, x);
        MarkCycle(world, before, x);
        states := states[x := Degraded];
        WentNowhere(world, universe, before, State(), x);
        return true;
      }
      if x !in manifests {
        if strict {
          RefusedUnsound(world, x);
          return false;
        }
        AddStub(world, before, x);
        manifests, states := manifests[x := STUB], states[x := Missing];
        visited := visited + {x};
        NewlyFound(world, before, State(), x);
        NoDependencies(world, x);
        WentToLeaf(world, universe, before, State(), x);
        return true;
      }
      if states[x] == Degraded {
        visited, order := visited + {x}, order + [x];
        if strict {
          RefusedUnsound(world, x);
          return false;
        }
        UnchangedMaps(before.manifests, x);
        UnchangedMaps(before.states, x);
        TakeUnsound(world, before, x);
        NewlyFound(world, before, State(), x);
        NoDependencies(world, x);
        WentToLeaf(world, universe, before, State(), x);
        return true;
      }
      ok := VisitInstalled(x);
    }

    // The visit of an installed id that has not been touched: import, then its dependencies.
    method VisitInstalled(x: Id) returns (ok: bool)
      requires Walking() && x in universe && x in world.manifests && x in world.states && x in states
      requires x !in visiting && x !in visited && states[x] != Degraded && world.states[x] == states[x]
      requires forall s | s in visiting :: Leads(world.Dependencies(), s, x)
      modifies this`manifests, this`states, this`extensions, this`order, this`visiting, this`visited
      ensures ok ==> Walking() && FoundFrom(world, old(State()), State(), x) && x in visited
      ensures ok ==> Went(old(State()), State(), VisitFrom(world, universe, old(State()), x))
      ensures !ok ==> strict && Refused(world, x)
      decreases |Untouched()|, 0, 0
    {
      hide WalkOK, Refused, World.Sound, World.Dependencies, Leads, Reaches, OnCycle, Went, VisitFrom, VisitAllFrom, FoundFrom, World.SeenExtension, World.SeenManifest, World.LeftStatus, World.Imported, Unsound;
      ghost var before := State();
      KeysMatch(world, strict, before);
      var imported := ImportEntryPoint(x);
      SeenIsUnsound(world, before, x);
      if !imported || manifests[x].apiVersion != API_VERSION {
        ok := DegradeFaulty(x, before);
        return;
      }
      visiting := visiting + {x};
      EnterSound(world, strict, before, x);
      EnteredRecord(world, strict, State(), x);
      assert x in universe - before.visiting - before.visited && x !in Untouched();
      SubsetIsSmaller(Untouched(), universe - before.visiting - before.visited);
      ghost var inside := State();
      ok := VisitDependencies(x, manifests[x].dependencies, before);
      if ok {
        ghost var last := State();
        LeaveNode(x, before);
        WentThrough(world, universe, before, inside, last, State(), x);
      }
    }

    // What was imported cannot be used: the id is finished at once. A strict manager raises.
    method DegradeFaulty(x: Id, ghost before: Walk) returns (ok: bool)
      requires WalkOK(world, strict, before) && x in universe && x in world.manifests && x in world.states && Unsound(world, x)
      requires x !in before.visiting && x !in before.visited && State() == Seen(world, before, x)
      requires world.entryPoints == entryPoints && world.manifests.Keys <= universe
      requires forall a, b :: Edge(world.Dependencies(), a, b) ==> b in universe
      modifies this`states, this`order, this`visited
      ensures ok == !strict
      ensures visiting == before.visiting && visited == before.visited + {x} && order == before.order + [x]
      ensures states == old(states)[x := Degraded]
      ensures ok ==> Walking() && FoundFrom(world, before, State(), x)
      ensures ok ==> Went(before, State(), VisitFrom(world, universe, before, x))
      ensures !ok ==> Refused(world, x)
    {
      hide WalkOK, Refused, World.Dependencies, Edge, Unsound, Went, VisitFrom;
      visited, order := visited + {x}, order + [x];
      states := states[x := Degraded];
      if strict {
        RefusedUnsound(world, x);
        return false;
      }
      TakeUnsound(world, before, x);
      NewlyFound(world, before, State(), x);
      NoDependencies(world, x);
      WentToLeaf(world, universe, before, State(), x);
      ok := true;
    }

    method LeaveNode(x: Id, ghost before: Walk)
      requires Walking() && x !in before.visiting && visiting == before.visiting + {x}
      requires before.visited <= visited && before.order <= order
      requires forall y | y in visited && y !in before.visited :: Reaches(world.Dependencies(), x, y)
      requires forall d | Edge(world.Dependencies(), x, d) ::
                 d in visited || (!strict && d in visiting && Leads(world.Dependencies(), d, x))
      modifies this`states, this`order, this`visiting, this`visited
      ensures Walking() && FoundFrom(world, before, State(), x) && x in visited
      ensures visiting == old(visiting) - {x} && visited == old(visited) + {x} && order == old(order) + [x]
    {
      hide WalkOK, Leads;
      ghost var inside := State();
      Leave(world, strict, inside, x);
      visiting, visited, order := visiting - {x}, visited + {x}, order + [x];
      if states[x] == Disabled {
        states := states[x := Discovered];
      }
      assert State() == Left(inside, x);
      assert visiting == before.visiting;
    }

    // The loop over the dependencies of the node that was entered last.
    method VisitDependencies(x: Id, dependencies: seq<Id>, ghost before: Walk) returns (ok: bool)
      requires Walking() && x !in before.visiting && visiting == before.visiting + {x}
      requires visited == before.visited && order == before.order
      requires x in world.Dependencies() && dependencies == world.Dependencies()[x]
      requires forall s | s in before.visiting :: Leads(world.Dependencies(), s, x)
      modifies this`manifests, this`states, this`extensions, this`order, this`visiting, this`visited
      ensures ok ==> Walking() && visiting == before.visiting + {x} && before.visited <= visited && before.order <= order
      ensures ok ==> forall y | y in visited && y !in before.visited :: Reaches(world.Dependencies(), x, y)
      ensures ok ==> forall d | Edge(world.Dependencies(), x, d) ::
                d in visited || (!strict && d in visiting && Leads(world.Dependencies(), d, x))
      ensures ok ==> Went(old(State()), State(), VisitAllFrom(world, universe, old(State()), dependencies))
      ensures !ok ==> strict && Refused(world, x)
      decreases |Untouched()|, 1, 0
    {
      hide WalkOK, Refused, World.Sound, World.Dependencies, Leads, Reaches, OnCycle, Went, Going, VisitFrom, VisitAllFrom;
      ghost var atEntry := Untouched();
      ghost var start := State();
      GoingFirst(world, universe, start, dependencies);
      for i := 0 to |dependencies|
        invariant Walking() && visiting == before.visiting + {x} && before.visited <= visited && before.order <= order
        invariant forall y | y in visited && y !in before.visited :: Reaches(world.Dependencies(), x, y)
        invariant forall j | 0 <= j < i :: dependencies[j] in visited || (!strict && dependencies[j] in visiting)
        invariant Untouched() <= atEntry
        invariant Going(world, universe, start, State(), dependencies, i)
      {
        var d := dependencies[i];
        assert Edge(world.Dependencies(), x, d);
        PathReaches(world.Dependencies(), before.visiting, x, d);
        SubsetIsNotLarger(Untouched(), atEntry);
        ghost var k := State();
        ok := Visit(d);
        if !ok {
          RefusedBelow(world, x, d);
          return;
        }
        ThroughDependency(world.Dependencies(), x, d, visited - k.visited);
        GoingNext(world, universe, start, k, State(), dependencies, i);
      }
      GoingLast(world, universe, start, State(), dependencies);
      ok := true;
      VisitedOrOnPath(world.Dependencies(), before.visiting, x, dependencies, visited, visiting, strict);
    }

    // Walks from every requested id; what is ordered is what the load pass goes over.
    method ResolveDependencies(requested: seq<Id>) returns (ok: bool)
      requires Snapshot().Valid() && extensions == {}
      requires forall r | r in requested :: r in manifests
      modifies this
      ensures world == old(Snapshot())
      ensures ok ==> Resolved(world, strict, State(), requested) && loadOrder == order
      ensures ok ==> loadOrder == Finished(world.Dependencies(), world.manifests.Keys, requested)
      ensures !ok ==> strict && exists r :: r in requested && Refused(world, r)
    {
      hide WalkOK, Refused, World.Sound, World.Dependencies, Leads, Reaches, OnCycle, Reached, Resolved, Edge, Went, Going, VisitFrom, VisitAllFrom, Finished;
      order, visiting, visited := [], {}, {};
      world := World(manifests, states, entryPoints);
      universe := manifests.Keys + Targets(world.Dependencies());
      TargetsHoldEdges(world.Dependencies());
      StartWalk(world, strict, State());
      ghost var w := world;
      ghost var start := State();
      GoingFirst(w, universe, start, requested);
      for i := 0 to |requested|
        invariant Going(w, universe, start, State(), requested, i) && universe == w.manifests.Keys + Targets(w.Dependencies())
        invariant Walking() && visiting == {} && world == w && manifests.Keys >= w.manifests.Keys
        invariant forall j | 0 <= j < i :: requested[j] in visited
        invariant forall y | y in visited :: Reached(w.Dependencies(), requested, y)
      {
        ghost var k := State();
        KeysMatch(world, strict, k);
        assert requested[i] in requested;
        ok := Visit(requested[i]);
        if !ok { return; }
        KeysMatch(world, strict, State());
        FromRoot(w.Dependencies(), requested, requested[i], visited - k.visited);
        GoingNext(w, universe, start, k, State(), requested, i);
      }
      GoingLast(w, universe, start, State(), requested);
      WentAll(w, universe, start, State(), requested);
      loadOrder := order;
      ok := true;
      WalkComplete(world, strict, State(), requested);
    }

    // The applied settings and the requirements of the ordered plugins are prepared; a
    // plugin whose preparation fails is degraded.
    method PrepareOwners(failing: set<Id>) returns (ok: bool)
      requires forall x | x in loadOrder :: x in states
      modifies this`states
      ensures states.Keys == old(states).Keys
      ensures ok ==> forall x | x in states ::
                states[x] == if x in loadOrder && x in failing then Degraded else old(states)[x]
      ensures strict ==> (ok <==> forall x | x in loadOrder :: x !in failing)
      ensures !ok ==> strict
    {
      for i := 0 to |loadOrder|
        invariant states.Keys == old(states).Keys
        invariant forall x | x in states ::
            states[x] == if x in loadOrder[..i] && x in failing then Degraded else old(states)[x]
        invariant strict ==> forall x | x in loadOrder[..i] :: x !in failing
      {
        var owner := loadOrder[i];
        assert owner in loadOrder;
        if owner in failing {
          if strict { return false; }
          states := states[owner := Degraded];
        }
        assert loadOrder[..i + 1] == loadOrder[..i] + [owner];
      }
      assert loadOrder[..|loadOrder|] == loadOrder;
      ok := true;
    }

    // The first dependency that is not in the required state.
    method DependencyError(x: Id, required: Status) returns (error: Option<Id>)
      requires x in manifests
      ensures error.None? <==> forall d | d in manifests[x].dependencies :: d in states && states[d] == required
      ensures error.Some? ==> error.value in manifests[x].dependencies && !(error.value in states && states[error.value] == required)
    {
      var dependencies := manifests[x].dependencies;
      for i := 0 to |dependencies|
        invariant forall j | 0 <= j < i :: dependencies[j] in states && states[dependencies[j]] == required
      {
        var d := dependencies[i];
        if !(d in states && states[d] == required) { return Some(d); }
      }
      error := None;
    }

    // One step of the load pass; false when registering raised.
    method LoadOne(x: Id, registers: set<Id>) returns (ok: bool)
      requires x in manifests && x in states
      modifies this`states, this`extensions
      ensures states == old(states)[x := Choice(manifests, registers, old(states), old(states), x)]
      ensures ok <==> !(old(states)[x] != Degraded && states[x] == Degraded)
      ensures extensions == if states[x] == Loaded then old(extensions) + {x} else if ok then old(extensions) else old(extensions) - {x}
    {
      ok := true;
      if states[x] == Degraded {
        UnchangedMaps(states, x);
        return;
      }
      var error := DependencyError(x, Loaded);
      if error.Some? {
        states := states[x := Blocked];
      } else if x !in registers {
        extensions := extensions - {x};
        states := states[x := Degraded];
        ok := false;
      } else {
        extensions := extensions + {x};
        states := states[x := Loaded];
      }
    }

    // The load pass. `registers` are the ids whose backend loads and registers; the others
    // raise there and are degraded.
    method LoadAndRegister(registers: set<Id>, ghost failing: set<Id>) returns (ok: bool)
      requires BeforeLoad(world, strict, failing, loadOrder, manifests, states)
      modifies this`states, this`extensions
      ensures states.Keys == old(states).Keys
      ensures ok ==> LoadedUpTo(world, failing, registers, loadOrder, states, |loadOrder|)
      ensures ok ==> forall x | x in loadOrder :: x in manifests && x in old(states) && states[x] == Choice(manifests, registers, old(states), states, x)
      ensures forall x | x in states && x !in loadOrder :: states[x] == old(states)[x]
      ensures ok ==> forall x | x in states && states[x] == Loaded :: x in extensions
      ensures forall x | x in extensions && x !in old(extensions) :: x in states && states[x] == Loaded
      ensures strict && ok ==> forall x | x in loadOrder :: x in states && states[x] == Loaded
      ensures !ok ==> strict && exists x :: x in loadOrder && x !in registers
    {
      hide BeforeLoad, LoadedUpTo, World.Sound, World.Dependencies, Leads, Reaches, OnCycle, WellFounded, DecidedAt, NoDuplicates;
      ghost var s0, trace := states, [];
      NothingLoaded(world, strict, failing, registers, loadOrder, manifests, states);
      for i := 0 to |loadOrder|
        invariant states.Keys == s0.Keys
        invariant LoadedUpTo(world, failing, registers, loadOrder, states, i)
        invariant forall j | i <= j < |loadOrder| :: states[loadOrder[j]] == s0[loadOrder[j]]
        invariant forall x | x in states && states[x] == Loaded :: x in extensions
        invariant forall x | x in extensions && x !in old(extensions) :: x in states && states[x] == Loaded
        invariant strict ==> forall j | 0 <= j < i :: states[loadOrder[j]] == Loaded
        invariant forall x | x in states && x !in loadOrder :: states[x] == s0[x]
        invariant |trace| == i
        invariant forall j: nat | j < i :: DecidedAt(world, failing, registers, loadOrder, manifests, s0, trace[j], states, j)
      {
        var x := loadOrder[i];
        ghost var before := states;
        assert x in loadOrder && loadOrder[i] == x;
        LoadDecision(world, strict, failing, registers, loadOrder, manifests, s0, before, i);
        if strict { StrictReady(world, failing, loadOrder, manifests, s0, before, i); }
        ok := LoadOne(x, registers);
        if !ok && strict { return; }
        LoadRecorded(world, failing, registers, loadOrder, before, i, states[x]);
        Decide(world, strict, failing, registers, loadOrder, manifests, s0, before, trace, i, states[x]);
        trace := trace + [before];
      }
      DecidedFinally(world, strict, failing, registers, loadOrder, manifests, s0, trace, states);
      ok := true;
    }

    // The enabled ids as configured: a blank one is refused, an unknown one gets a stub or,
    // in strict mode, is refused too.
    method ResolveEnabled(raw: seq<string>) returns (ok: bool, requested: seq<Id>)
      requires Snapshot().Valid()
      modifies this`manifests, this`states
      ensures ok <==> NoneBlank(raw) && (!strict || forall x | x in Configured(raw) :: x in old(manifests))
      ensures ok ==> Snapshot() == WithStubs(old(Snapshot()), Configured(raw))
      ensures ok ==> requested == Only(Configured(raw), old(manifests).Keys)
      ensures !ok ==> manifests == old(manifests) && states == old(states)
    {
      hide Strip, Stripped, Deduplicated, Only, WithStubs, NoneBlank, World.Valid;
      var distinct := Deduplicated(raw);
      SameBlanks(raw);
      if !NoneBlank(distinct) { return false, []; }
      var configured := Stripped(distinct);
      ghost var w := Snapshot();
      var unknown;
      requested, unknown := SplitConfigured(configured);
      if unknown != {} && strict { return false, []; }
      StubsAreAdded(w, configured, unknown);
      StubsKeepEntryPoints(w, configured);
      manifests := manifests + map x | x in unknown :: STUB;
      states := states + map x | x in unknown :: Missing;
      ok := true;
    }

    method SplitConfigured(configured: seq<Id>) returns (requested: seq<Id>, unknown: set<Id>)
      ensures requested == Only(configured, manifests.Keys)
      ensures unknown == set x | x in configured && x !in manifests
      ensures unknown == {} <==> forall x | x in configured :: x in manifests
    {
      requested, unknown := [], {};
      for i := 0 to |configured|
        invariant requested == Only(configured[..i], manifests.Keys) && unknown == Unknown(configured[..i], manifests.Keys)
      {
        SplitNext(configured, manifests.Keys, i);
        if configured[i] !in manifests {
          unknown := unknown + {configured[i]};
        } else {
          requested := requested + [configured[i]];
        }
      }
      assert configured[..|configured|] == configured;
      NoneUnknown(configured, manifests.Keys);
    }

    // The start-up from the configured ids to the loaded extensions. `failing` are the
    // plugins whose settings or requirements cannot be prepared, `registers` those whose
    // registration does not raise.
    method Boot(raw: seq<string>, failing: set<Id>, registers: set<Id>) returns (ok: bool, ghost requested: seq<Id>)
      requires Snapshot().Valid() && extensions == {}
      modifies this
      ensures !strict ==> (ok <==> NoneBlank(raw))
      ensures ok ==> world == WithStubs(old(Snapshot()), Configured(raw))
      ensures ok ==> requested == Only(Configured(raw), old(manifests).Keys)
      ensures ok ==> Booted(world, strict, failing, registers, requested, loadOrder, states)
      ensures ok ==> loadOrder == Finished(world.Dependencies(), world.manifests.Keys, requested)
      ensures ok ==> ManifestsLeft(world, loadOrder, manifests, states)
      ensures ok ==> forall x | x in loadOrder :: OrderedStatus(world, failing, registers, states, x)
      ensures ok ==> forall x | x !in loadOrder :: OtherStatus(world, requested, states, x)
      ensures ok ==> forall x | x in states && states[x] == Loaded :: x in extensions
      // strict: all or nothing
      ensures strict ==>
        var configured := Configured(raw);
        var w := WithStubs(old(Snapshot()), configured);
        ok <==>
          && NoneBlank(raw)
          && (forall x | x in configured :: x in old(manifests))
          && (forall x | Reached(w.Dependencies(), configured, x) :: WellFounded(w, failing, registers, x))
    {
      hide World.Sound, World.Dependencies, Leads, Reaches, OnCycle, Reached, WellFounded, BeforeLoad, WalkOK, LoadedUpTo, Booted, Configured, NoneBlank, ManifestsLeft, World.SeenManifest, Choice, OrderedStatus, OtherStatus, Finished;
      ghost var w0, configured := Snapshot(), Configured(raw);
      ghost var w := WithStubs(w0, configured);
      StubsKeepValid(w0, configured);
      var known;
      ok, known := ResolveEnabled(raw);
      requested := known;
      if !ok { return; }
      if strict { SameRoots(w.Dependencies(), configured, known); }
      ok := ResolveDependencies(known);
      if !ok {
        RefusedRoot(w, failing, registers, known);
        return;
      }
      ghost var k := State();
      KeysMatch(w, strict, k);
      OrderIsReached(w, strict, k, known);
      OrderedManifests(w, strict, k);
      ok := PrepareOwners(failing);
      if !ok {
        ghost var x :| x in loadOrder && x in failing;
        UnhealthyOwner(w, failing, registers, x);
        return;
      }
      ReadyToLoad(w, strict, k, known, failing, states);
      ghost var beforeLoad := states;
      ok := LoadAndRegister(registers, failing);
      if !ok {
        ghost var x :| x in loadOrder && x !in registers;
        UnhealthyOwner(w, failing, registers, x);
        return;
      }
      BootComplete(w, strict, failing, registers, known, k, states);
      StatusesLeft(w, k.order, manifests, registers, beforeLoad, states);
      BootStatuses(w, strict, k, known, failing, registers, beforeLoad, states);
      if strict { LoadedAll(w, failing, registers, known, loadOrder, states); }
    }
  }

  lemma BootStatuses(w: World, strict: bool, k: Walk, requested: seq<Id>, failing: set<Id>, registers: set<Id>,
                     before: map<Id, Status>, states: map<Id, Status>)
    requires Resolved(w, strict, k, requested) && before.Keys == k.states.Keys == states.Keys
    requires forall x | x in before :: before[x] == if x in k.order && x in failing then Degraded else k.states[x]
    requires forall x | x in k.order :: x in k.manifests && x in before && states[x] == Choice(k.manifests, registers, before, states, x)
    requires forall x | x in states && x !in k.order :: states[x] == before[x]
    ensures forall x | x in k.order :: OrderedStatus(w, failing, registers, states, x)
    ensures forall x | x !in k.order :: OtherStatus(w, requested, states, x)
  {
    ResolvedIsPrepared(w, strict, k, requested, failing, before);
    hide Resolved, Choice, OrderedStatus, OtherStatus, Prepared;
    forall x | x in k.order ensures OrderedStatus(w, failing, registers, states, x) {
      OrderedStatuses(w, failing, registers, k.manifests, before, states, x);
    }
    forall x | x !in k.order ensures OtherStatus(w, requested, states, x) {
      OtherStatuses(w, strict, k, requested, states, x);
    }
  }

  lemma SameRoots(g: Graph, a: seq<Id>, b: seq<Id>)
    requires forall x :: x in a <==> x in b
    ensures forall x :: Reached(g, a, x) <==> Reached(g, b, x)
  {}

  lemma OrderIsReached(w: World, strict: bool, k: Walk, requested: seq<Id>)
    requires Resolved(w, strict, k, requested)
    ensures forall x | x in k.order :: Reached(w.Dependencies(), requested, x) && x in k.states
  {}

  lemma UnhealthyOwner(w: World, failing: set<Id>, registers: set<Id>, x: Id)
    requires x in failing || x !in registers
    ensures !WellFounded(w, failing, registers, x)
  {
    if WellFounded(w, failing, registers, x) { WellFoundedIsSound(w, failing, registers, x); }
  }

  lemma RefusedRoot(w: World, failing: set<Id>, registers: set<Id>, requested: seq<Id>)
    requires exists r :: r in requested && Refused(w, r)
    ensures exists x :: Reached(w.Dependencies(), requested, x) && !WellFounded(w, failing, registers, x)
  {
    var r :| r in requested && Refused(w, r);
    var y :| Reaches(w.Dependencies(), r, y) && (!w.Sound(y) || OnCycle(w.Dependencies(), y));
    RefusedIsNotWellFounded(w, failing, registers, r, y);
    assert Reaches(w.Dependencies(), r, r);
    assert Reached(w.Dependencies(), requested, r);
  }

  lemma LoadedAll(w: World, failing: set<Id>, registers: set<Id>, requested: seq<Id>, order: seq<Id>, states: map<Id, Status>)
    requires Booted(w, true, failing, registers, requested, order, states)
    requires forall x | x in order :: x in states && states[x] == Loaded
    requires forall r | r in requested :: r in w.manifests
    ensures forall x | Reached(w.Dependencies(), requested, x) :: WellFounded(w, failing, registers, x)
  {
    forall x | Reached(w.Dependencies(), requested, x) ensures WellFounded(w, failing, registers, x) {
      var r :| r in requested && Reaches(w.Dependencies(), r, x);
      assert Reaches(w.Dependencies(), r, r) && Reached(w.Dependencies(), requested, r);
      assert r in order;
      WellFoundedBelow(w, failing, registers, r, x);
    }
  }

  /* ----- facts about the steps of the walk, on values ----- */

  lemma MeetsItself(w: World, x: Id)
    requires Leads(w.Dependencies(), x, x)
    ensures OnCycle(w.Dependencies(), x)
  {}

  lemma RefusedCycle(w: World, x: Id)
    requires Leads(w.Dependencies(), x, x)
    ensures Refused(w, x)
  {
    assert Reaches(w.Dependencies(), x, x) && OnCycle(w.Dependencies(), x);
  }

  ghost predicate Unsound(w: World, x: Id) {
    x !in w.manifests || x !in w.states || w.states[x] == Degraded
    || w.Imported(x).None? || w.Imported(x).value.apiVersion != API_VERSION
  }

  lemma SeenIsUnsound(w: World, k: Walk, x: Id)
    requires x in w.manifests && x in w.states && w.states[x] != Degraded
    ensures x in Seen(w, k, x).manifests
    ensures Unsound(w, x) <==> w.Imported(x).None? || Seen(w, k, x).manifests[x].apiVersion != API_VERSION
  {}

  lemma RefusedUnsound(w: World, x: Id)
    requires Unsound(w, x)
    ensures Refused(w, x)
  {
    assert Reaches(w.Dependencies(), x, x) && !w.Sound(x);
  }

  lemma TakeUnsound(w: World, k: Walk, x: Id)
    requires WalkOK(w, false, k) && x in w.manifests && x in w.states && Unsound(w, x) && x !in k.visited && x !in k.visiting
    ensures WalkOK(w, false, FaultyTaken(w, k, x))
  {
    TakeFaulty(w, k, x);
  }

  lemma EnterSound(w: World, strict: bool, k: Walk, x: Id)
    requires WalkOK(w, strict, k) && !Unsound(w, x) && x !in k.visited && x !in k.visiting
    ensures WalkOK(w, strict, Entered(w, k, x))
  {
    Enter(w, strict, k, x);
  }

  lemma NewlyFound(w: World, before: Walk, after: Walk, x: Id)
    requires after.visited == before.visited + {x} && after.visiting == before.visiting && before.order <= after.order
    ensures FoundFrom(w, before, after, x)
  {}

  lemma RefusedBelow(w: World, x: Id, d: Id)
    requires Edge(w.Dependencies(), x, d) && Refused(w, d)
    ensures Refused(w, x)
  {
    var g := w.Dependencies();
    var y :| Reaches(g, d, y) && (!w.Sound(y) || OnCycle(g, y));
    EdgeLeads(g, x, d);
    LeadsTransitive(g, x, d, y);
  }

  // Everything on the path, and the node entered last, leads to its dependency.
  lemma PathReaches(g: Graph, path: set<Id>, x: Id, d: Id)
    requires Edge(g, x, d) && forall s | s in path :: Leads(g, s, x)
    ensures forall s | s in path + {x} :: Leads(g, s, d)
  {
    EdgeLeads(g, x, d);
    forall s | s in path ensures Leads(g, s, d) { LeadsTransitive(g, s, x, d); }
  }

  lemma ThroughDependency(g: Graph, x: Id, d: Id, found: set<Id>)
    requires Edge(g, x, d) && forall y | y in found :: Reaches(g, d, y)
    ensures forall y | y in found :: Reaches(g, x, y)
  {
    EdgeLeads(g, x, d);
    forall y | y in found ensures Reaches(g, x, y) { LeadsTransitive(g, x, d, y); }
  }

  lemma VisitedOrOnPath(g: Graph, path: set<Id>, x: Id, dependencies: seq<Id>, visited: set<Id>, visiting: set<Id>, strict: bool)
    requires x in g && dependencies == g[x] && visiting == path + {x}
    requires forall s | s in path :: Leads(g, s, x)
    requires forall j | 0 <= j < |dependencies| :: dependencies[j] in visited || (!strict && dependencies[j] in visiting)
    ensures forall d | Edge(g, x, d) :: d in visited || (!strict && d in visiting && Leads(g, d, x))
  {
    forall d | Edge(g, x, d) ensures d in visited || (!strict && d in visiting && Leads(g, d, x)) {
      if d == x { EdgeLeads(g, x, x); }
    }
  }
}
