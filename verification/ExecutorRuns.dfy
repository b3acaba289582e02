/**
 What a whole start, and a start followed by a stop, make of the status map left by a boot.
 */
module ExecutorRuns {
  import opened DependencyGraph
  import opened ExtensionWalk
  import opened ExtensionLoading
  import opened ExecutorPlane
  import opened Sequences

  // What booting leaves behind: nothing runs, and a LOADED extension has its dependencies
  // LOADED and earlier in the load order.
  ghost predicate BootOK(s: Setup, before: Plane) {
    && PlaneOK(s, before) && before.active == {}
    && (forall x | x in before.states && before.states[x] == Loaded :: x in s.order && x in s.extensions)
    && (forall i: nat | i < |s.order| && before.states[s.order[i]] == Loaded :: DependenciesBefore(s, i))
    && (forall x, d :: x in before.states && before.states[x] == Loaded && Edge(s.dependencies, x, d) ==>
          d in before.states && before.states[d] == Loaded)
  }

  // The setup of an executor over what a boot left in the records.
  ghost predicate SetupFor(s: Setup, w: World, order: seq<Id>, states: map<Id, Status>) {
    && s.order == order
    && (forall x | x in order :: x in s.dependencies)
    && (forall x | x in states :: states[x] != Running)
    && (forall x | x in states && states[x] == Loaded ::
          x in s.extensions && x in w.Dependencies() && x in s.dependencies && s.dependencies[x] == w.Dependencies()[x])
  }

  lemma BootedIsReady(w: World, strict: bool, failing: set<Id>, registers: set<Id>, requested: seq<Id>,
                      order: seq<Id>, states: map<Id, Status>, s: Setup)
    requires Booted(w, strict, failing, registers, requested, order, states) && SetupFor(s, w, order, states)
    ensures BootOK(s, Plane(states, {}, {}, {}, {}))
  {
    hide World.Dependencies, NoDuplicates, DependenciesFirst;
    forall x | x in states && states[x] == Loaded ensures x in order {
      WellFoundedIsSound(w, failing, registers, x);
    }
    forall x, d | x in states && states[x] == Loaded && Edge(s.dependencies, x, d)
      ensures d in states && states[d] == Loaded
    {
      var _, _ := LoadedClosedAndOrdered(w, strict, failing, registers, requested, order, states, x, d);
    }
    forall i: nat | i < |order| && states[order[i]] == Loaded ensures DependenciesBefore(s, i) {
      forall d | d in s.dependencies[order[i]] ensures d in order[..i] {
        LoadedBefore(w, strict, failing, registers, requested, order, states, i, d);
      }
    }
  }

  lemma LoadedBefore(w: World, strict: bool, failing: set<Id>, registers: set<Id>, requested: seq<Id>,
                     order: seq<Id>, states: map<Id, Status>, i: nat, d: Id)
    requires Booted(w, strict, failing, registers, requested, order, states)
    requires i < |order| && order[i] in states && states[order[i]] == Loaded && Edge(w.Dependencies(), order[i], d)
    ensures d in order[..i]
  {
    hide World.Dependencies, DependenciesFirst;
    var k, j := LoadedClosedAndOrdered(w, strict, failing, registers, requested, order, states, order[i], d);
    assert k == i;
    assert order[..i][j] == d;
  }

  // Nothing below x, x included, raises on starting.
  ghost predicate StartsWithAllBelow(s: Setup, x: Id) {
    forall y :: Reaches(s.dependencies, x, y) ==> s.Starts(y)
  }

  lemma StartsBelow(s: Setup, x: Id)
    ensures StartsWithAllBelow(s, x) <==>
              s.Starts(x) && forall d :: Edge(s.dependencies, x, d) ==> StartsWithAllBelow(s, d)
  {
    var g := s.dependencies;
    if StartsWithAllBelow(s, x) {
      assert Reaches(g, x, x);
      forall d, y | Edge(g, x, d) && Reaches(g, d, y) ensures s.Starts(y) {
        EdgeLeads(g, x, d);
        LeadsTransitive(g, x, d, y);
      }
    } else {
      var y :| Reaches(g, x, y) && !s.Starts(y);
      if y != x {
        var d := LeadsThrough(g, x, y);
        assert !StartsWithAllBelow(s, d);
      }
    }
  }

  // One extension, when this is known of its dependencies.
  lemma RunsIffHere(s: Setup, before: Plane, mid: Plane, i: nat)
    requires i < |s.order| && StartedOne(s, before.states, mid, i) && before.states[s.order[i]] == Loaded
    requires DependenciesBefore(s, i) && RunningClosed(s, mid.states)
    requires forall d | Edge(s.dependencies, s.order[i], d) :: Running?(mid.states, d) <==> StartsWithAllBelow(s, d)
    ensures Running?(mid.states, s.order[i]) <==> StartsWithAllBelow(s, s.order[i])
    ensures mid.states[s.order[i]] == Degraded <==>
              !s.Starts(s.order[i]) && forall d :: Edge(s.dependencies, s.order[i], d) ==> StartsWithAllBelow(s, d)
    ensures mid.states[s.order[i]] == Blocked <==>
              exists d :: Edge(s.dependencies, s.order[i], d) && !StartsWithAllBelow(s, d)
  {
    hide StartsWithAllBelow;
    StartsBelow(s, s.order[i]);
  }

  // Of what a start has come to, exactly those LOADED extensions run that raise nowhere in
  // their dependency closure; the others among them are blocked or degraded.
  lemma {:induction false} RunsIff(s: Setup, before: Plane, mid: Plane, n: nat, i: nat)
    requires BootOK(s, before) && PlaneOK(s, mid) && n <= |s.order| && StartedUpTo(s, before.states, mid, n)
    requires i < n && before.states[s.order[i]] == Loaded
    ensures Running?(mid.states, s.order[i]) <==> StartsWithAllBelow(s, s.order[i])
    ensures mid.states[s.order[i]] == Degraded <==>
              !s.Starts(s.order[i]) && forall d :: Edge(s.dependencies, s.order[i], d) ==> StartsWithAllBelow(s, d)
    ensures mid.states[s.order[i]] == Blocked <==>
              exists d :: Edge(s.dependencies, s.order[i], d) && !StartsWithAllBelow(s, d)
  {
    hide StartsWithAllBelow, RunningClosed, StartedOne;
    var x := s.order[i];
    assert StartedOne(s, before.states, mid, i) && DependenciesBefore(s, i);
    forall d | Edge(s.dependencies, x, d)
      ensures d in s.order[..i] && (Running?(mid.states, d) <==> StartsWithAllBelow(s, d))
    {
      var j :| 0 <= j < i && s.order[j] == d;
      RunsIff(s, before, mid, n, j);
    }
    RunsIffHere(s, before, mid, i);
  }

  // No extension that is LOADED raises in its hooks.
  ghost predicate HooksReturn(s: Setup, states: map<Id, Status>) {
    forall x :: x in states && states[x] == Loaded ==> s.Starts(x) && !(s.startHook(x).Returns? && s.stopHook(x).Raises?)
  }

  // No extension that boot already registered is BLOCKED.
  ghost predicate NoneBlocked(s: Setup, states: map<Id, Status>) {
    forall x :: x in states && x in s.order && x in s.extensions ==> states[x] != Blocked
  }

  // An extension that is not LOADED keeps its status through start and stop, except that
  // BLOCKED turns into LOADED when it is registered.
  lemma OthersRestored(s: Setup, before: Plane, mid: Plane, after: Plane, n: nat, x: Id)
    requires BootOK(s, before) && PlaneOK(s, mid) && n <= |s.order|
    requires StartedUpTo(s, before.states, mid, n) && StoppedAll(s, mid, after)
    requires x in before.states && before.states[x] != Loaded
    ensures x in after.states
    ensures after.states[x] == before.states[x] <==> !(x in s.order && x in s.extensions && before.states[x] == Blocked)
  {
    hide RunningClosed;
    assert !Running?(before.states, x);
    if x in s.order[..n] {
      var i :| 0 <= i < n && s.order[i] == x;
      assert StartedOne(s, before.states, mid, i);
    }
    assert mid.states[x] == before.states[x];
    assert x !in mid.active && x !in mid.started;
  }

  // A LOADED extension that ran comes back LOADED unless its stop hook raises; one that was
  // degraded stays degraded.
  lemma LoadedRestored(s: Setup, before: Plane, mid: Plane, after: Plane, i: nat)
    requires BootOK(s, before) && PlaneOK(s, mid)
    requires StartedUpTo(s, before.states, mid, |s.order|) && StoppedAll(s, mid, after)
    requires i < |s.order| && before.states[s.order[i]] == Loaded
    ensures s.order[i] in after.states
    ensures var x := s.order[i];
      after.states[x] == Loaded <==>
      mid.states[x] == Blocked || (Running?(mid.states, x) && !(s.startHook(x).Returns? && s.stopHook(x).Raises?))
  {
    hide RunningClosed;
    var x := s.order[i];
    assert x in s.order;
    assert StartedOne(s, before.states, mid, i);
  }

  // The first LOADED extension that raises on starting is degraded, and stays so.
  lemma {:induction false} FirstFailureDegrades(s: Setup, before: Plane, mid: Plane, i: nat) returns (k: nat)
    requires BootOK(s, before) && PlaneOK(s, mid) && StartedUpTo(s, before.states, mid, |s.order|)
    requires i < |s.order| && before.states[s.order[i]] == Loaded && !Running?(mid.states, s.order[i])
    ensures k < |s.order| && s.order[k] in before.states && before.states[s.order[k]] == Loaded && mid.states[s.order[k]] == Degraded
  {
    var x := s.order[i];
    assert StartedOne(s, before.states, mid, i);
    if mid.states[x] == Degraded { return i; }
    assert DependenciesBefore(s, i);
    var d :| d in s.dependencies[x] && !Running?(mid.states, d);
    assert Edge(s.dependencies, x, d);
    var j :| 0 <= j < i && s.order[j] == d;
    k := FirstFailureDegrades(s, before, mid, j);
  }

  // A strict start succeeds exactly when no LOADED extension raises on starting.
  lemma StrictStartIff(s: Setup, before: Plane, mid: Plane, ok: bool, n: nat)
    requires BootOK(s, before) && PlaneOK(s, mid) && StartEnded(s, true, before.states, mid, ok, n)
    ensures ok <==> forall x | x in before.states && before.states[x] == Loaded :: s.Starts(x)
  {
    hide PlaneOK, RunningClosed, StartsWithAllBelow, DependenciesBefore;
    if !ok {
      assert StartedOne(s, before.states, mid, n - 1);
      assert !s.Starts(s.order[n - 1]);
    } else {
      forall x | x in before.states && before.states[x] == Loaded ensures s.Starts(x) {
        var i :| 0 <= i < |s.order| && s.order[i] == x;
        hide BootOK;
        if !Running?(mid.states, x) {
          var k := FirstFailureDegrades(s, before, mid, i);
          assert false;
        }
        assert StartedOne(s, before.states, mid, i);
      }
    }
  }

  // Start, whether it comes to its end or not, and then stop give the status map back exactly
  // when no hook of a LOADED extension raises and no registered extension was BLOCKED.
  lemma StartStopRestores(s: Setup, strict: bool, before: Plane, mid: Plane, after: Plane, ok: bool, n: nat)
    requires BootOK(s, before) && PlaneOK(s, mid)
    requires StartEnded(s, strict, before.states, mid, ok, n) && StoppedAll(s, mid, after)
    ensures after.states == before.states <==> HooksReturn(s, before.states) && NoneBlocked(s, before.states)
  {
    hide BootOK, PlaneOK, StartedUpTo, StoppedAll, HooksReturn, NoneBlocked, NoneDegraded;
    if ok {
      CompletedStartRestores(s, before, mid, after);
    } else {
      BrokenOffIsDegraded(s, before, mid, after, n);
    }
  }

  // What a strict start broke off at stays DEGRADED.
  lemma BrokenOffIsDegraded(s: Setup, before: Plane, mid: Plane, after: Plane, n: nat)
    requires PlaneOK(s, mid) && StartEnded(s, true, before.states, mid, false, n) && StoppedAll(s, mid, after)
    ensures before.states[s.order[n - 1]] == Loaded && s.order[n - 1] in after.states && after.states[s.order[n - 1]] == Degraded
    ensures !HooksReturn(s, before.states)
  {
    hide RunningClosed, NoLoadedBeforeActive, DependenciesBefore;
    assert StartedOne(s, before.states, mid, n - 1);
    assert !Running?(mid.states, s.order[n - 1]);
  }

  lemma CompletedStartRestores(s: Setup, before: Plane, mid: Plane, after: Plane)
    requires BootOK(s, before) && PlaneOK(s, mid)
    requires StartedUpTo(s, before.states, mid, |s.order|) && StoppedAll(s, mid, after)
    ensures after.states == before.states <==> HooksReturn(s, before.states) && NoneBlocked(s, before.states)
  {
    hide PlaneOK, StartedUpTo, StoppedAll, StartsWithAllBelow;
    if HooksReturn(s, before.states) && NoneBlocked(s, before.states) {
      HooksReturnRestores(s, before, mid, after);
    }
    if after.states == before.states {
      forall x | x in before.states && x in s.order && x in s.extensions ensures before.states[x] != Blocked {
        if before.states[x] == Blocked { OthersRestored(s, before, mid, after, |s.order|, x); }
      }
      forall x | x in before.states && before.states[x] == Loaded
        ensures s.Starts(x) && !(s.startHook(x).Returns? && s.stopHook(x).Raises?)
      {
        var i :| 0 <= i < |s.order| && s.order[i] == x;
        RestoredRan(s, before, mid, after, i);
      }
    }
  }

  lemma RestoredRan(s: Setup, before: Plane, mid: Plane, after: Plane, i: nat)
    requires BootOK(s, before) && PlaneOK(s, mid) && after.states == before.states
    requires StartedUpTo(s, before.states, mid, |s.order|) && StoppedAll(s, mid, after)
    requires i < |s.order| && s.order[i] in before.states && before.states[s.order[i]] == Loaded
    ensures var x := s.order[i];
      s.Starts(x) && !(s.startHook(x).Returns? && s.stopHook(x).Raises?)
  {
    hide PlaneOK, RunningClosed, StartsWithAllBelow;
    LoadedRestored(s, before, mid, after, i);
    if !Running?(mid.states, s.order[i]) {
      var k := FirstFailureDegrades(s, before, mid, i);
      LoadedRestored(s, before, mid, after, k);
      assert false;
    }
    RunsIff(s, before, mid, |s.order|, i);
    StartsBelow(s, s.order[i]);
  }

  lemma HooksReturnRestores(s: Setup, before: Plane, mid: Plane, after: Plane)
    requires BootOK(s, before) && PlaneOK(s, mid)
    requires StartedUpTo(s, before.states, mid, |s.order|) && StoppedAll(s, mid, after)
    requires HooksReturn(s, before.states) && NoneBlocked(s, before.states)
    ensures after.states == before.states
  {
    hide PlaneOK, RunningClosed, StartsWithAllBelow;
    forall x | x in before.states ensures x in after.states && after.states[x] == before.states[x] {
      if before.states[x] == Loaded {
        var i :| 0 <= i < |s.order| && s.order[i] == x;
        LoadedRestored(s, before, mid, after, i);
        if !Running?(mid.states, x) {
          var k := FirstFailureDegrades(s, before, mid, i);
          RunsIff(s, before, mid, |s.order|, k);
          assert false;
        }
      } else {
        OthersRestored(s, before, mid, after, |s.order|, x);
      }
    }
  }

  /* ----- a registered extension that is BLOCKED ----- */

  // "x" is an installed entry point that, once imported, depends on "d", which is missing.
  function BlockingWorld(): World {
    World(map["x" := Manifest(API_VERSION, [])], map["x" := Disabled], map["x" := Provides("x", Manifest(API_VERSION, ["d"]))])
  }

  function BlockedStates(): map<Id, Status> {
    map["x" := Blocked, "d" := Missing]
  }

  function BlockedSetup(): Setup {
    Setup(["x"], map["x" := ["d"]], {"x"}, x => NoHook, x => NoHook, x => true)
  }

  lemma BlockingFacts()
    ensures "x" != "d" && BlockingWorld().Valid() && BlockingWorld().Sound("x") && BlockingWorld().manifests.Keys == {"x"}
    ensures BlockingWorld().SeenExtension("x") && !BlockingWorld().Sound("d")
    ensures forall a, b :: Edge(BlockingWorld().Dependencies(), a, b) <==> a == "x" && b == "d"
  {
    assert "x"[0] != "d"[0];
  }

  lemma BlockingBoots()
    ensures Booted(BlockingWorld(), false, {}, {"x"}, ["x"], ["x"], BlockedStates())
  {
    BlockingFacts();
    var w := BlockingWorld();
    var g := w.Dependencies();
    hide BlockingWorld, World.Sound, World.Dependencies, World.SeenExtension, World.Valid;
    EdgeLeads(g, "x", "d");
    assert Reaches(g, "x", "x") && Reaches(g, "x", "d");
    assert "x" in ["x"];
    forall x | Reached(g, ["x"], x) && x in w.manifests ensures x in ["x"] {}
    assert Reached(g, ["x"], "x");
    if WellFounded(w, {}, {"x"}, "x") {
      assert false;
    }
    if WellFounded(w, {}, {"x"}, "d") {
      WellFoundedIsSound(w, {}, {"x"}, "d");
      assert false;
    }
  }

  lemma BlockedSetupFits()
    ensures SetupFor(BlockedSetup(), BlockingWorld(), ["x"], BlockedStates())
    ensures HooksReturn(BlockedSetup(), BlockedStates()) && BlockedSetup().order == ["x"]
    ensures BlockedStates()["x" := Loaded] != BlockedStates()
  {
    assert "x"[0] != "d"[0];
  }

  lemma BlockedStays(s: Setup, p: Plane)
    requires s.order == ["x"] && "x" in p.states && p.states["x"] == Blocked && "x" in s.dependencies
    ensures StartedUpTo(s, p.states, p, 1)
  {
    assert s.order[..1] == ["x"];
    assert StartedOne(s, p.states, p, 0);
  }

  // Starting leaves it BLOCKED, stopping makes it LOADED.
  lemma BlockedEntryPointIsNotRestored()
    ensures Booted(BlockingWorld(), false, {}, {"x"}, ["x"], ["x"], BlockedStates())
    ensures BlockingWorld().Valid() && BlockingWorld().SeenExtension("x")
    ensures SetupFor(BlockedSetup(), BlockingWorld(), ["x"], BlockedStates())
    ensures var s, before := BlockedSetup(), Plane(BlockedStates(), {}, {}, {}, {});
      && BootOK(s, before) && HooksReturn(s, before.states)
      && StartedUpTo(s, before.states, before, 1)
      && StoppedAll(s, before, before.(states := before.states["x" := Loaded]))
      && before.states["x" := Loaded] != before.states
  {
    BlockingFacts();
    BlockedSetupFits();
    BlockedStops();
    var s, before := BlockedSetup(), Plane(BlockedStates(), {}, {}, {}, {});
    BlockedStays(s, before);
    hide *;
    BlockingBoots();
    BootedIsReady(BlockingWorld(), false, {}, {"x"}, ["x"], ["x"], BlockedStates(), s);
  }

  lemma BlockedStops()
    ensures var s, before := BlockedSetup(), Plane(BlockedStates(), {}, {}, {}, {});
      StoppedAll(s, before, before.(states := before.states["x" := Loaded]))
  {
    assert "x"[0] != "d"[0];
    var s, before := BlockedSetup(), Plane(BlockedStates(), {}, {}, {}, {});
    assert Stopped(s, before, "x") == Loaded && Stopped(s, before, "d") == Missing;
    assert before.states["x" := Loaded] == map x | x in before.states :: Stopped(s, before, x);
  }
}
