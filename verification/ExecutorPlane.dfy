/**
 The executor plane of the extension manager: starting loaded extensions in load order and
 stopping them in reverse, with hooks that may raise.
 */
module ExecutorPlane {
  import opened DependencyGraph
  import opened ExtensionWalk
  import opened Sequences

  // A hook is not defined, returns, or raises.
  datatype Hook = NoHook | Returns | Raises

  // The status map and the four owner sets.
  datatype Plane = Plane(
    states: map<Id, Status>,
    active: set<Id>, runtimeOwners: set<Id>, started: set<Id>, toolOwners: set<Id>)

  // What does not change while the plane starts and stops.
  datatype Setup = Setup(
    order: seq<Id>, dependencies: map<Id, seq<Id>>, extensions: set<Id>,
    startHook: Id -> Hook, stopHook: Id -> Hook, registersTools: Id -> bool)
  {
    ghost predicate Valid(states: map<Id, Status>) {
      && NoDuplicates(order)
      && forall x | x in order :: x in dependencies && x in states
    }

    // Starting x raises nowhere.
    predicate Starts(x: Id) {
      startHook(x).NoHook? || (startHook(x).Returns? && registersTools(x))
    }
  }

  predicate Running?(states: map<Id, Status>, x: Id) {
    x in states && states[x] == Running
  }

  // Whatever is RUNNING has all its dependencies RUNNING.
  ghost predicate RunningClosed(s: Setup, states: map<Id, Status>) {
    forall x, d :: Running?(states, x) && x in s.dependencies && d in s.dependencies[x] ==> Running?(states, d)
  }

  ghost predicate DependenciesBefore(s: Setup, i: nat)
    requires i < |s.order|
  {
    s.order[i] in s.dependencies && forall d | d in s.dependencies[s.order[i]] :: d in s.order[..i]
  }

  ghost predicate NoLoadedBeforeActive(s: Setup, p: Plane) {
    forall i, j | 0 <= i < j < |s.order| && s.order[j] in p.active ::
      s.order[i] in p.states && p.states[s.order[i]] != Loaded
  }

  // What holds between calls: the active owners are the RUNNING ids, the other owner sets
  // lie within them, and in the load order a RUNNING id comes after its dependencies and
  // after no id that is still LOADED.
  ghost predicate PlaneOK(s: Setup, p: Plane) {
    && s.Valid(p.states)
    && RunningClosed(s, p.states)
    && (forall x :: x in p.active <==> Running?(p.states, x))
    && (forall x | x in p.active :: x in s.order)
    && (forall i: nat | i < |s.order| && s.order[i] in p.active :: DependenciesBefore(s, i))
    && NoLoadedBeforeActive(s, p)
    && p.runtimeOwners <= p.active && p.started <= p.active && p.toolOwners <= p.active
  }

  // x is a runtime owner, has its start hook to answer for and has tools, or none of these.
  predicate Owns(p: Plane, x: Id, yes: bool) {
    (x in p.runtimeOwners) == (x in p.started) == (x in p.toolOwners) == yes
  }

  // What start does to the i-th id of the load order. Only a LOADED id changes: it runs when
  // its dependencies run by then and nothing raises, is degraded when they run and something
  // raises, and is blocked when one does not run.
  ghost predicate StartedOne(s: Setup, before: map<Id, Status>, p: Plane, i: nat)
    requires i < |s.order|
  {
    var x := s.order[i];
    && x in before && x in p.states && x in s.dependencies
    && if before[x] != Loaded then p.states[x] == before[x]
       else match p.states[x]
         case Running => s.Starts(x) && Owns(p, x, s.startHook(x).Returns?)
         case Degraded => !s.Starts(x) && forall d | d in s.dependencies[x] :: Running?(p.states, d)
         case Blocked => exists d :: d in s.dependencies[x] && (d !in s.order[..i] || !Running?(p.states, d))
         case _ => false
  }

  ghost predicate StartedUpTo(s: Setup, before: map<Id, Status>, p: Plane, n: nat)
    requires n <= |s.order|
  {
    && p.states.Keys == before.Keys
    && (forall i: nat | i < n :: StartedOne(s, before, p, i))
    && (forall x | x in before && x !in s.order[..n] :: p.states[x] == before[x])
  }

  // None of the first n ids that were LOADED has been degraded.
  ghost predicate NoneDegraded(s: Setup, before: map<Id, Status>, states: map<Id, Status>, n: nat)
    requires n <= |s.order|
  {
    forall i: nat | i < n && s.order[i] in before && before[s.order[i]] == Loaded ::
      s.order[i] in states && states[s.order[i]] != Degraded
  }

  // How a start ends that has come to the n-th id: at the end of the load order, or, being
  // strict, behind the first id it had to degrade.
  ghost predicate StartEnded(s: Setup, strict: bool, before: map<Id, Status>, p: Plane, ok: bool, n: nat) {
    && n <= |s.order| && StartedUpTo(s, before, p, n)
    && (ok ==> n == |s.order| && (strict ==> NoneDegraded(s, before, p.states, n)))
    && (!ok ==>
          && strict && n > 0 && NoneDegraded(s, before, p.states, n - 1)
          && s.order[n - 1] in before && before[s.order[n - 1]] == Loaded
          && s.order[n - 1] in p.states && p.states[s.order[n - 1]] == Degraded)
  }

  // What stop leaves of one id.
  function Stopped(s: Setup, p: Plane, x: Id): Status
    requires x in p.states
  {
    if x !in s.order then p.states[x]
    else if x in p.active || x in p.started then
      if x in p.started && s.stopHook(x).Raises? then Degraded else Loaded
    else if x in s.extensions && p.states[x] == Blocked then Loaded
    else p.states[x]
  }

  ghost predicate StoppedAll(s: Setup, before: Plane, after: Plane) {
    && after.states == (map x | x in before.states :: Stopped(s, before, x))
    && after.active == after.runtimeOwners == after.started == after.toolOwners == {}
  }

  // The status stop leaves: what was active is LOADED again, or DEGRADED when it had its hook
  // started and its stop hook raises; a registered id that was BLOCKED is LOADED, too; all others
  // keep theirs.
  ghost predicate LeftBy(s: Setup, before: Plane, after: Plane, x: Id)
    requires x in before.states
  {
    x in after.states &&
    var was, now := before.states[x], after.states[x];
    && (x in before.active ==> now == if x in before.started && s.stopHook(x).Raises? then Degraded else Loaded)
    && (x !in before.active && x in s.order && x in s.extensions && was == Blocked ==> now == Loaded)
    && (x !in before.active && !(x in s.order && x in s.extensions && was == Blocked) ==> now == was)
  }

  lemma StoppedIsLeft(s: Setup, before: Plane, after: Plane, x: Id)
    requires PlaneOK(s, before) && StoppedAll(s, before, after) && x in before.states
    ensures LeftBy(s, before, after, x)
  {
    hide RunningClosed, NoLoadedBeforeActive, DependenciesBefore;
  }

  class Executor {
    const setup: Setup
    const strict: bool

    var states: map<Id, Status>
    var active: set<Id>
    var runtimeOwners: set<Id>
    var started: set<Id>
    var toolOwners: set<Id>
    var hasRuntime: bool

    // every status map there has been, one entry for each status written
    ghost var trace: seq<map<Id, Status>>

    constructor (setup: Setup, strict: bool, states: map<Id, Status>)
      requires setup.Valid(states) && forall x :: !Running?(states, x)
      ensures Valid() && this.setup == setup && this.strict == strict
      ensures State() == Plane(states, {}, {}, {}, {}) && !hasRuntime && trace == []
    {
      this.setup, this.strict, this.states := setup, strict, states;
      active, runtimeOwners, started, toolOwners, hasRuntime, trace := {}, {}, {}, {}, false, [];
    }

    ghost function State(): Plane
      reads this
    {
      Plane(states, active, runtimeOwners, started, toolOwners)
    }

    // Owners with registered tools only exist while there is a runtime to revoke them from.
    ghost predicate Valid()
      reads this
    {
      PlaneOK(setup, State()) && (toolOwners != {} ==> hasRuntime)
    }

    // All status maps since the n-th keep RUNNING closed.
    ghost predicate ClosedSince(n: nat)
      reads this
    {
      n <= |trace| && forall k | n <= k < |trace| :: RunningClosed(setup, trace[k])
    }

    method SetState(x: Id, status: Status)
      modifies this`states, this`trace
      ensures states == old(states)[x := status]
      ensures trace == old(trace) + [states]
    {
      states := states[x := status];
      trace := trace + [states];
    }

    method DependenciesRun(x: Id) returns (ok: bool)
      requires x in setup.dependencies
      ensures ok <==> forall d | d in setup.dependencies[x] :: Running?(states, d)
    {
      var dependencies := setup.dependencies[x];
      for i := 0 to |dependencies|
        invariant forall j | 0 <= j < i :: Running?(states, dependencies[j])
      {
        if !Running?(states, dependencies[i]) { return false; }
      }
      ok := true;
    }

    // Revokes the tools of an owner, calls its stop hook if it was started, and takes it
    // out of all owner sets. Reports whether the hook raised.
    method Deactivate(owner: Id) returns (failed: bool)
      requires toolOwners != {} ==> hasRuntime
      modifies this`active, this`runtimeOwners, this`started, this`toolOwners
      ensures active == old(active) - {owner} && runtimeOwners == old(runtimeOwners) - {owner}
      ensures started == old(started) - {owner} && toolOwners == old(toolOwners) - {owner}
      ensures failed == (owner in old(started) && setup.stopHook(owner).Raises?)
    {
      if hasRuntime && owner in toolOwners {
        toolOwners := toolOwners - {owner};
      }
      failed := false;
      if owner in started {
        started := started - {owner};
        failed := setup.stopHook(owner).Raises?;
      }
      runtimeOwners := runtimeOwners - {owner};
      active := active - {owner};
    }

    // Starting one LOADED id whose dependencies run; false when it had to be degraded.
    method StartOne(x: Id) returns (ok: bool)
      requires hasRuntime && x in states && x !in active && x !in runtimeOwners && x !in started && x !in toolOwners
      modifies this`states, this`active, this`runtimeOwners, this`started, this`toolOwners, this`trace
      ensures ok == setup.Starts(x)
      ensures ok <==> setup.startHook(x).NoHook? || (setup.startHook(x).Returns? && setup.registersTools(x))
      ensures states == old(states)[x := if ok then Running else Degraded]
      ensures active == old(active) + if ok then {x} else {}
      ensures var hooked := if ok && setup.startHook(x).Returns? then {x} else {};
        && runtimeOwners == old(runtimeOwners) + hooked
        && started == old(started) + hooked
        && toolOwners == old(toolOwners) + hooked
      ensures trace == old(trace) + [old(states)[x := Starting], states]
    {
      SetState(x, Starting);
      ok := true;
      if setup.startHook(x) != NoHook {
        started := started + {x};
        ok := setup.startHook(x).Returns?;
        if ok {
          toolOwners := toolOwners + {x};
          ok := setup.registersTools(x);
          if ok { runtimeOwners := runtimeOwners + {x}; }
        }
      }
      if ok {
        active := active + {x};
        SetState(x, Running);
      } else {
        var _ := Deactivate(x);
        SetState(x, Degraded);
      }
      assert states == old(states)[x := if ok then Running else Degraded];
    }

    // Starts every LOADED id in load order. A strict executor raises (returns false) at the
    // first one it has to degrade, and leaves those behind it as they were.
    method Start() returns (ok: bool, ghost n: nat)
      requires Valid()
      modifies this
      ensures Valid()
      ensures ClosedSince(old(|trace|)) && old(trace) <= trace
      ensures StartEnded(setup, strict, old(states), State(), ok, n)
    {
      hide PlaneOK, StartedUpTo, RunningClosed, NoneDegraded, NoDuplicates, Setup.Starts, StartedOne;
      hasRuntime := true;
      ghost var n0 := |trace|;
      NothingStarted(setup, State());
      assert NoneDegraded(setup, states, states, 0) by { NoneYet(setup, states); }
      for i := 0 to |setup.order|
        invariant hasRuntime && PlaneOK(setup, State()) && StartedUpTo(setup, old(states), State(), i)
        invariant strict ==> NoneDegraded(setup, old(states), states, i)
        invariant ClosedSince(n0) && old(trace) <= trace
      {
        var x := setup.order[i];
        ghost var p := State();
        InOrder(setup, p, i);
        NotComeTo(setup, old(states), p, i);
        if states[x] == Loaded {
          var ready := DependenciesRun(x);
          if ready {
            StartStep(setup, old(states), p, i);
            if strict { OneMoreDecided(setup, old(states), states, i, if setup.Starts(x) then Running else Degraded); }
            ok := StartOne(x);
            if !ok && strict {
              return false, i + 1;
            }
          } else {
            BlockStep(setup, old(states), p, i);
            if strict { OneMoreDecided(setup, old(states), states, i, Blocked); }
            SetState(x, Blocked);
          }
        } else {
          SkipStep(setup, old(states), p, i);
          if strict { OneMoreDecided(setup, old(states), states, i, Blocked); }
        }
      }
      ok, n := true, |setup.order|;
    }

    // Stops in reverse load order; a stop hook that raises degrades its extension.
    method Stop()
      requires Valid()
      modifies this
      ensures Valid() && !hasRuntime
      ensures ClosedSince(old(|trace|)) && old(trace) <= trace
      ensures StoppedAll(setup, old(State()), State())
      ensures forall x | x in old(states) :: LeftBy(setup, old(State()), State(), x)
    {
      hide PlaneOK, RunningClosed;
      ghost var before := State();
      var i := |setup.order|;
      assert PlaneOK(setup, before);
      NothingStopped(setup, before);
      while i > 0
        invariant 0 <= i <= |setup.order|
        invariant toolOwners != {} ==> hasRuntime
        invariant PlaneOK(setup, State()) && StoppedFrom(setup, before, State(), i)
        invariant ClosedSince(old(|trace|)) && old(trace) <= trace
      {
        i := i - 1;
        var x := setup.order[i];
        ghost var p := State();
        StopStep(setup, before, p, i);
        if x in active || x in started {
          var failed := Deactivate(x);
          SetState(x, if failed then Degraded else Loaded);
        } else if x in setup.extensions && states[x] == Blocked {
          SetState(x, Loaded);
        }
        StoppedIdle(setup, p, x);
      }
      EverythingStopped(setup, before, State());
      forall x | x in before.states ensures LeftBy(setup, before, State(), x) { StoppedIsLeft(setup, before, State(), x); }
      hasRuntime := false;
    }
  }

  /* ----- the steps of start, on values ----- */

  lemma NothingStarted(s: Setup, p: Plane)
    requires PlaneOK(s, p)
    ensures StartedUpTo(s, p.states, p, 0)
  {}

  lemma InOrder(s: Setup, p: Plane, i: nat)
    requires PlaneOK(s, p) && i < |s.order|
    ensures s.order[i] in p.states && s.order[i] in s.dependencies
    ensures !Running?(p.states, s.order[i]) ==>
              s.order[i] !in p.active && s.order[i] !in p.runtimeOwners && s.order[i] !in p.started && s.order[i] !in p.toolOwners
  {
    assert s.order[i] in s.order;
  }

  lemma NoneYet(s: Setup, states: map<Id, Status>)
    ensures NoneDegraded(s, states, states, 0)
  {}

  // The i-th id still has its old status.
  lemma NotComeTo(s: Setup, before: map<Id, Status>, p: Plane, i: nat)
    requires PlaneOK(s, p) && i < |s.order| && StartedUpTo(s, before, p, i)
    ensures NoDuplicates(s.order)
    ensures s.order[i] in before && s.order[i] in p.states && p.states[s.order[i]] == before[s.order[i]]
  {
    hide RunningClosed, StartedOne;
    assert s.order[i] in s.order && s.order[i] !in s.order[..i];
  }

  // Giving it a status degrades none of those before it.
  lemma OneMoreDecided(s: Setup, before: map<Id, Status>, states: map<Id, Status>, i: nat, status: Status)
    requires NoDuplicates(s.order) && i < |s.order| && NoneDegraded(s, before, states, i)
    ensures NoneDegraded(s, before, states[s.order[i] := status], i)
    ensures status != Degraded ==> NoneDegraded(s, before, states[s.order[i] := status], i + 1)
    ensures s.order[i] in before && before[s.order[i]] != Loaded ==> NoneDegraded(s, before, states, i + 1)
  {}

  lemma NotRunningKeepsClosed(s: Setup, states: map<Id, Status>, x: Id, status: Status)
    requires RunningClosed(s, states) && status != Running
    requires forall y | Running?(states, y) && y in s.dependencies :: x !in s.dependencies[y] || !Running?(states, x)
    ensures RunningClosed(s, states[x := status])
  {
    var states' := states[x := status];
    forall y, d | Running?(states', y) && y in s.dependencies && d in s.dependencies[y] ensures Running?(states', d) {
      assert Running?(states, y);
      assert Running?(states, d);
    }
  }

  // The i-th id is LOADED and every dependency runs, or one does not.
  ghost predicate Ready(s: Setup, p: Plane, i: nat)
    requires i < |s.order|
  {
    && s.order[i] in s.dependencies && s.order[i] in p.states && p.states[s.order[i]] == Loaded
    && forall d | d in s.dependencies[s.order[i]] :: Running?(p.states, d)
  }

  ghost predicate NotReady(s: Setup, p: Plane, i: nat)
    requires i < |s.order|
  {
    && s.order[i] in s.dependencies && s.order[i] in p.states && p.states[s.order[i]] == Loaded
    && exists d :: d in s.dependencies[s.order[i]] && !Running?(p.states, d)
  }

  // What has been decided for the ids before the i-th one is not touched by it.
  lemma StartedKept(s: Setup, before: map<Id, Status>, p: Plane, p': Plane, i: nat)
    requires NoDuplicates(s.order) && i < |s.order| && s.order[i] in before && StartedUpTo(s, before, p, i)
    requires p'.states.Keys == p.states.Keys
    requires forall y | y in p.states && y != s.order[i] :: p'.states[y] == p.states[y]
    requires forall y | y != s.order[i] ::
               (y in p'.runtimeOwners <==> y in p.runtimeOwners) && (y in p'.started <==> y in p.started) && (y in p'.toolOwners <==> y in p.toolOwners)
    requires StartedOne(s, before, p', i)
    ensures StartedUpTo(s, before, p', i + 1)
  {
    var x := s.order[i];
    assert s.order[..i + 1] == s.order[..i] + [x];
    forall k: nat | k < i + 1 ensures StartedOne(s, before, p', k) {
      if k < i {
        assert StartedOne(s, before, p, k);
        assert s.order[k] != x;
        assert x !in s.order[..k];
      }
    }
  }

  lemma SkipStep(s: Setup, before: map<Id, Status>, p: Plane, i: nat)
    requires PlaneOK(s, p) && i < |s.order| && StartedUpTo(s, before, p, i)
    requires s.order[i] in p.states && p.states[s.order[i]] != Loaded
    ensures StartedUpTo(s, before, p, i + 1)
  {
    assert s.order[i] in s.order && s.order[i] !in s.order[..i];
    StartedKept(s, before, p, p, i);
  }

  function Blocking(p: Plane, x: Id): Plane {
    p.(states := p.states[x := Blocked])
  }

  lemma BlockStep(s: Setup, before: map<Id, Status>, p: Plane, i: nat)
    requires PlaneOK(s, p) && i < |s.order| && StartedUpTo(s, before, p, i)
    requires NotReady(s, p, i)
    ensures var p' := Blocking(p, s.order[i]);
      PlaneOK(s, p') && RunningClosed(s, p'.states) && StartedUpTo(s, before, p', i + 1)
  {
    var x := s.order[i];
    var p' := Blocking(p, x);
    assert x in s.order && x !in s.order[..i];
    NotRunningKeepsClosed(s, p.states, x, Blocked);
    var d :| d in s.dependencies[x] && !Running?(p.states, d);
    assert d in s.dependencies[x] && !Running?(p'.states, d);
    StartedKept(s, before, p, p', i);
  }

  // The plane after one id has been started, or degraded because something raised.
  function StartedPlane(s: Setup, p: Plane, x: Id): Plane {
    var owned := if s.Starts(x) then {x} else {};
    var hooked := if s.Starts(x) && s.startHook(x).Returns? then {x} else {};
    Plane(p.states[x := if s.Starts(x) then Running else Degraded],
          p.active + owned, p.runtimeOwners + hooked, p.started + hooked, p.toolOwners + hooked)
  }

  lemma RunningKeepsOrder(s: Setup, p: Plane, p': Plane, i: nat)
    requires NoDuplicates(s.order) && NoLoadedBeforeActive(s, p) && i < |s.order|
    requires forall k | 0 <= k < i :: s.order[k] in p.states && p.states[s.order[k]] != Loaded
    requires p'.active <= p.active + {s.order[i]} && p'.states == p.states[s.order[i] := Running]
    ensures NoLoadedBeforeActive(s, p')
  {
    forall j, k | 0 <= j < k < |s.order| && s.order[k] in p'.active
      ensures s.order[j] in p'.states && p'.states[s.order[j]] != Loaded
    {
      assert s.order[k] == s.order[i] ==> k == i;
    }
  }

  lemma RunningKeepsClosed(s: Setup, states: map<Id, Status>, x: Id)
    requires RunningClosed(s, states) && x in s.dependencies && forall d | d in s.dependencies[x] :: Running?(states, d)
    ensures RunningClosed(s, states[x := Running])
  {
    var states' := states[x := Running];
    forall y, d | Running?(states', y) && y in s.dependencies && d in s.dependencies[y] ensures Running?(states', d) {
      if y != x { assert Running?(states, y); }
      assert Running?(states, d);
    }
  }

  lemma RunningKeepsPlane(s: Setup, p: Plane, i: nat)
    requires PlaneOK(s, p) && i < |s.order| && Ready(s, p, i) && s.Starts(s.order[i]) && DependenciesBefore(s, i)
    requires forall k | 0 <= k < i :: s.order[k] in p.states && p.states[s.order[k]] != Loaded
    ensures PlaneOK(s, StartedPlane(s, p, s.order[i]))
  {
    var x, p' := s.order[i], StartedPlane(s, p, s.order[i]);
    assert x in s.order;
    RunningKeepsOrder(s, p, p', i);
    RunningKeepsClosed(s, p.states, x);
    hide NoLoadedBeforeActive, RunningClosed;
  }

  lemma DegradedKeepsPlane(s: Setup, p: Plane, i: nat)
    requires PlaneOK(s, p) && i < |s.order| && Ready(s, p, i) && !s.Starts(s.order[i])
    ensures PlaneOK(s, StartedPlane(s, p, s.order[i]))
  {
    var x := s.order[i];
    assert x in s.order;
    NotRunningKeepsClosed(s, p.states, x, Degraded);
    hide RunningClosed;
  }

  lemma StartKeepsPlane(s: Setup, before: map<Id, Status>, p: Plane, i: nat)
    requires PlaneOK(s, p) && i < |s.order| && StartedUpTo(s, before, p, i)
    requires Ready(s, p, i)
    ensures PlaneOK(s, StartedPlane(s, p, s.order[i])) && RunningClosed(s, p.states[s.order[i] := Starting])
  {
    NotRunningKeepsClosed(s, p.states, s.order[i], Starting);
    if s.Starts(s.order[i]) {
      StartedBefore(s, before, p, i);
      hide *;
      RunningKeepsPlane(s, p, i);
    } else {
      DegradedKeepsPlane(s, p, i);
    }
  }

  lemma StartStep(s: Setup, before: map<Id, Status>, p: Plane, i: nat)
    requires PlaneOK(s, p) && i < |s.order| && StartedUpTo(s, before, p, i)
    requires Ready(s, p, i)
    ensures var x, p' := s.order[i], StartedPlane(s, p, s.order[i]);
      && PlaneOK(s, p') && RunningClosed(s, p'.states) && RunningClosed(s, p.states[x := Starting])
      && StartedUpTo(s, before, p', i + 1)
  {
    var x := s.order[i];
    assert x in s.order && x !in s.order[..i];
    StartKeepsPlane(s, before, p, i);
    hide RunningClosed, DependenciesBefore;
    StartedKept(s, before, p, StartedPlane(s, p, x), i);
  }

  // The dependencies of the id about to run are active, hence earlier in the order.
  lemma StartedBefore(s: Setup, before: map<Id, Status>, p: Plane, i: nat)
    requires PlaneOK(s, p) && i < |s.order| && StartedUpTo(s, before, p, i)
    requires Ready(s, p, i)
    ensures DependenciesBefore(s, i)
    ensures forall k | 0 <= k < i :: s.order[k] in p.states && p.states[s.order[k]] != Loaded
  {
    var x := s.order[i];
    forall d | d in s.dependencies[x] ensures d in s.order[..i] {
      assert d in p.active && d in s.order;
      var j :| 0 <= j < |s.order| && s.order[j] == d;
      assert j < i;
    }
    forall k: nat | k < i ensures s.order[k] in p.states && p.states[s.order[k]] != Loaded {
      assert StartedOne(s, before, p, k);
    }
  }

  /* ----- the steps of stop, on values ----- */

  function StoppedOne(s: Setup, p: Plane, x: Id): Plane
    requires x in p.states
  {
    Plane(p.states[x := Stopped(s, p, x)], p.active - {x}, p.runtimeOwners - {x}, p.started - {x}, p.toolOwners - {x})
  }

  // An id that owns nothing changes at most its status.
  lemma StoppedIdle(s: Setup, p: Plane, x: Id)
    requires PlaneOK(s, p) && x in p.states && x in s.order
    ensures x !in p.active && x !in p.started && !(x in s.extensions && p.states[x] == Blocked) ==> StoppedOne(s, p, x) == p
    ensures x !in p.active && x !in p.started && x in s.extensions && p.states[x] == Blocked ==>
              StoppedOne(s, p, x) == p.(states := p.states[x := Loaded])
  {
    if x !in p.active && x !in p.started {
      assert p.active - {x} == p.active && p.runtimeOwners - {x} == p.runtimeOwners;
      assert p.started - {x} == p.started && p.toolOwners - {x} == p.toolOwners;
      assert p.states[x := p.states[x]] == p.states;
    }
  }

  // The ids from the i-th one on have been stopped, the others not touched.
  ghost predicate StoppedFrom(s: Setup, before: Plane, p: Plane, i: nat)
    requires i <= |s.order|
  {
    var done := Rest(s, i);
    && p.states == (map x | x in before.states :: if x in done then Stopped(s, before, x) else before.states[x])
    && p.active == before.active - done && p.runtimeOwners == before.runtimeOwners - done
    && p.started == before.started - done && p.toolOwners == before.toolOwners - done
  }

  lemma NothingStopped(s: Setup, before: Plane)
    ensures StoppedFrom(s, before, before, |s.order|)
  {
    assert s.order[|s.order|..] == [];
  }

  // Nothing that still runs depends on the id being stopped.
  lemma NoDependentRuns(s: Setup, before: Plane, p: Plane, i: nat, y: Id)
    requires PlaneOK(s, p) && i < |s.order| && StoppedFrom(s, before, p, i + 1)
    requires Running?(p.states, y) && y in s.dependencies
    ensures s.order[i] !in s.dependencies[y] || !Running?(p.states, s.order[i])
  {
    hide StoppedFrom;
    assert y in p.active;
    var k :| 0 <= k < |s.order| && s.order[k] == y;
    assert DependenciesBefore(s, k);
    if i < k {
      ActiveNotStopped(s, before, p, i + 1, k);
    }
    if s.order[i] in s.order[..k] {
      assert false;
    }
  }

  lemma ActiveNotStopped(s: Setup, before: Plane, p: Plane, i: nat, k: nat)
    requires i <= k < |s.order| && StoppedFrom(s, before, p, i)
    ensures s.order[k] !in p.active
  {
    assert s.order[k] == s.order[i..][k - i];
  }

  lemma StopKeepsOrder(s: Setup, p: Plane, i: nat, status: Status)
    requires PlaneOK(s, p) && i < |s.order| && forall k | i < k < |s.order| :: s.order[k] !in p.active
    ensures NoLoadedBeforeActive(s, p.(active := p.active - {s.order[i]}, states := p.states[s.order[i] := status]))
  {
    var x := s.order[i];
    var states' := p.states[x := status];
    forall j, k | 0 <= j < k < |s.order| && s.order[k] in p.active - {x}
      ensures s.order[j] in states' && states'[s.order[j]] != Loaded
    {
      assert s.order[j] in s.order;
      assert k <= i;
    }
  }

  lemma StopKeepsPlane(s: Setup, before: Plane, p: Plane, i: nat)
    requires PlaneOK(s, p) && i < |s.order| && StoppedFrom(s, before, p, i + 1)
    ensures s.order[i] in p.states
    ensures var p' := StoppedOne(s, p, s.order[i]);
      PlaneOK(s, p') && RunningClosed(s, p'.states)
  {
    hide StoppedFrom;
    var x := s.order[i];
    assert x in s.order;
    forall y | Running?(p.states, y) && y in s.dependencies ensures x !in s.dependencies[y] || !Running?(p.states, x) {
      NoDependentRuns(s, before, p, i, y);
    }
    NotRunningKeepsClosed(s, p.states, x, Stopped(s, p, x));
    forall k | i < k < |s.order| ensures s.order[k] !in p.active {
      ActiveNotStopped(s, before, p, i + 1, k);
    }
    StopKeepsOrder(s, p, i, Stopped(s, p, x));
  }

  // The ids from the i-th one on, as a set.
  function Rest(s: Setup, i: nat): set<Id>
    requires i <= |s.order|
  {
    set x | x in s.order[i..]
  }

  lemma RestGrows(s: Setup, i: nat)
    requires NoDuplicates(s.order) && i < |s.order|
    ensures Rest(s, i) == Rest(s, i + 1) + {s.order[i]} && s.order[i] !in Rest(s, i + 1)
  {
    assert s.order[i..] == [s.order[i]] + s.order[i + 1..];
  }

  lemma StopStatus(s: Setup, before: Plane, p: Plane, i: nat)
    requires NoDuplicates(s.order) && i < |s.order| && StoppedFrom(s, before, p, i + 1) && s.order[i] in p.states
    ensures StoppedOne(s, p, s.order[i]).states ==
            (map x | x in before.states :: if x in Rest(s, i) then Stopped(s, before, x) else before.states[x])
  {
    RestGrows(s, i);
    var x := s.order[i];
    assert p.states[x] == before.states[x];
    assert (x in p.active <==> x in before.active) && (x in p.started <==> x in before.started);
    hide Rest;
  }

  lemma StopOwners(s: Setup, before: Plane, p: Plane, i: nat)
    requires NoDuplicates(s.order) && i < |s.order| && StoppedFrom(s, before, p, i + 1) && s.order[i] in p.states
    ensures var p', done := StoppedOne(s, p, s.order[i]), Rest(s, i);
      && p'.active == before.active - done && p'.runtimeOwners == before.runtimeOwners - done
      && p'.started == before.started - done && p'.toolOwners == before.toolOwners - done
  {
    RestGrows(s, i);
    hide Rest, Stopped;
  }

  lemma StopStep(s: Setup, before: Plane, p: Plane, i: nat)
    requires PlaneOK(s, p) && i < |s.order| && StoppedFrom(s, before, p, i + 1)
    ensures s.order[i] in p.states
    ensures var p' := StoppedOne(s, p, s.order[i]);
      PlaneOK(s, p') && RunningClosed(s, p'.states) && StoppedFrom(s, before, p', i)
  {
    StopKeepsPlane(s, before, p, i);
    assert NoDuplicates(s.order);
    hide PlaneOK, RunningClosed, NoDuplicates, Stopped;
    StopStatus(s, before, p, i);
    StopOwners(s, before, p, i);
  }

  lemma EverythingStopped(s: Setup, before: Plane, p: Plane)
    requires PlaneOK(s, before) && StoppedFrom(s, before, p, 0)
    ensures StoppedAll(s, before, p)
  {
    assert s.order[0..] == s.order;
  }
}
