/**
 What a finished dependency walk hands to the load pass, and exactly which extensions the
 pass loads.
 */
module ExtensionLoading {
  import opened DependencyGraph
  import opened ExtensionWalk
  import opened PythonStrings
  import opened Sequences

  // The walk is over: it has met exactly what the requested ids reach.
  ghost predicate Resolved(w: World, strict: bool, k: Walk, requested: seq<Id>) {
    && WalkOK(w, strict, k)
    && k.visiting == {}
    && forall x :: x in k.visited <==> Reached(w.Dependencies(), requested, x)
  }

  lemma StartWalk(w: World, strict: bool, k: Walk)
    requires w.Valid() && k == Walk(w.manifests, w.states, {}, [], {}, {})
    ensures WalkOK(w, strict, k)
  {}

  lemma FromRoot(g: Graph, roots: seq<Id>, r: Id, found: set<Id>)
    requires r in roots && forall y | y in found :: Reaches(g, r, y)
    ensures forall y | y in found :: Reached(g, roots, y)
  {}

  lemma WalkComplete(w: World, strict: bool, k: Walk, requested: seq<Id>)
    requires WalkOK(w, strict, k) && k.visiting == {}
    requires forall r | r in requested :: r in k.visited
    requires forall y | y in k.visited :: Reached(w.Dependencies(), requested, y)
    ensures Resolved(w, strict, k, requested)
  {
    ReachedIsClosure(w.Dependencies(), requested, k.visited);
  }

  /* ----- which extensions can be loaded ----- */

  // Nothing is wrong with this one: it is installed and importable, its settings and
  // requirements are prepared, and its registration does not raise.
  ghost predicate Healthy(w: World, failing: set<Id>, registers: set<Id>, x: Id) {
    w.Sound(x) && x !in failing && x in registers
  }

  // Nothing is wrong with it or anything it needs, and none of these lies on a cycle.
  ghost predicate WellFounded(w: World, failing: set<Id>, registers: set<Id>, x: Id) {
    forall y | Reaches(w.Dependencies(), x, y) :: Healthy(w, failing, registers, y) && !OnCycle(w.Dependencies(), y)
  }

  lemma WellFoundedBelow(w: World, failing: set<Id>, registers: set<Id>, x: Id, y: Id)
    requires WellFounded(w, failing, registers, x) && Reaches(w.Dependencies(), x, y)
    ensures WellFounded(w, failing, registers, y)
  {
    forall z | Reaches(w.Dependencies(), y, z) ensures Reaches(w.Dependencies(), x, z) {
      LeadsTransitive(w.Dependencies(), x, y, z);
    }
  }

  lemma WellFoundedFromDependencies(w: World, failing: set<Id>, registers: set<Id>, x: Id)
    requires Healthy(w, failing, registers, x)
    requires forall d | Edge(w.Dependencies(), x, d) :: WellFounded(w, failing, registers, d)
    ensures WellFounded(w, failing, registers, x)
  {
    var g := w.Dependencies();
    if OnCycle(g, x) {
      var d := LeadsThrough(g, x, x);
      assert false;
    }
    forall y | Reaches(g, x, y) ensures Healthy(w, failing, registers, y) && !OnCycle(g, y) {
      if y != x {
        var d := LeadsThrough(g, x, y);
        assert WellFounded(w, failing, registers, d);
      }
    }
  }

  lemma NoWayBack(g: Graph, x: Id, d: Id)
    requires Edge(g, x, d) && !OnCycle(g, x)
    ensures !Leads(g, d, x)
  {
    EdgeLeads(g, x, d);
    if Leads(g, d, x) { LeadsTransitive(g, x, d, x); }
  }

  /* ----- the load pass ----- */

  // The record of one ordered id: its dependencies are known, and it is degraded when
  // something is wrong with it, or when a cycle was closed there.
  ghost predicate Prepared(w: World, failing: set<Id>, manifests: map<Id, Manifest>, states: map<Id, Status>, x: Id) {
    && x in w.manifests && x in manifests && x in states
    && (w.Sound(x) ==> x in w.Dependencies() && manifests[x].dependencies == w.Dependencies()[x])
    && (!w.Sound(x) || x in failing ==> states[x] == Degraded)
    && (states[x] == Degraded ==> !w.Sound(x) || x in failing || OnCycle(w.Dependencies(), x))
  }

  ghost predicate BeforeLoad(w: World, strict: bool, failing: set<Id>, order: seq<Id>,
                             manifests: map<Id, Manifest>, states: map<Id, Status>)
  {
    && NoDuplicates(order)
    && DependenciesFirst(w, strict, order)
    && (forall x | x in order :: Prepared(w, failing, manifests, states, x))
    && (forall x | x in states :: states[x] != Loaded && states[x] != Blocked)
    && (strict ==> forall x | x in order :: x in states && states[x] != Degraded)
  }

  ghost predicate LoadedUpTo(w: World, failing: set<Id>, registers: set<Id>, order: seq<Id>, states: map<Id, Status>, i: nat)
    requires i <= |order|
  {
    forall x | x in states :: states[x] == Loaded <==> x in order[..i] && WellFounded(w, failing, registers, x)
  }

  ghost predicate Ready(manifests: map<Id, Manifest>, states: map<Id, Status>, x: Id)
    requires x in manifests
  {
    forall d | d in manifests[x].dependencies :: d in states && states[d] == Loaded
  }

  // The status the pass gives to x when `now` are the statuses it sees.
  ghost function Choice(manifests: map<Id, Manifest>, registers: set<Id>, before: map<Id, Status>, now: map<Id, Status>, x: Id): Status
    requires x in manifests && x in before
  {
    if before[x] == Degraded then Degraded
    else if !Ready(manifests, now, x) then Blocked
    else if x in registers then Loaded
    else Degraded
  }

  // What the pass saw when it came to an id, and what it made of it.
  ghost predicate DecidedAt(w: World, failing: set<Id>, registers: set<Id>, order: seq<Id>, manifests: map<Id, Manifest>,
                            before: map<Id, Status>, now: map<Id, Status>, states: map<Id, Status>, j: nat)
    requires j < |order|
  {
    && order[j] in manifests && order[j] in before && order[j] in states
    && LoadedUpTo(w, failing, registers, order, now, j) && now.Keys == before.Keys
    && states[order[j]] == Choice(manifests, registers, before, now, order[j])
  }

  // A dependency that was not LOADED when it was asked for is not LOADED in the end either.
  lemma ReadyIsFinal(w: World, strict: bool, failing: set<Id>, registers: set<Id>, order: seq<Id>, manifests: map<Id, Manifest>,
                     before: map<Id, Status>, now: map<Id, Status>, states: map<Id, Status>, j: nat)
    requires BeforeLoad(w, strict, failing, order, manifests, before) && states.Keys == before.Keys
    requires j < |order| && DecidedAt(w, failing, registers, order, manifests, before, now, states, j)
    requires LoadedUpTo(w, failing, registers, order, states, |order|) && before[order[j]] != Degraded
    ensures Ready(manifests, now, order[j]) <==> Ready(manifests, states, order[j])
  {
    var g, x := w.Dependencies(), order[j];
    assert x in order && Prepared(w, failing, manifests, before, x);
    hide World.Sound, World.Dependencies, WellFounded;
    assert order[..|order|] == order;
    forall d | d in manifests[x].dependencies && d in states
      ensures now[d] == Loaded <==> states[d] == Loaded
    {
      assert Edge(g, x, d);
      if d in order && WellFounded(w, failing, registers, d) {
        assert d in order[..j] by {
          NoWayBackFrom(w, failing, registers, x, d);
          assert FirstAt(w, strict, order, j);
        }
      }
    }
  }

  lemma NoWayBackFrom(w: World, failing: set<Id>, registers: set<Id>, x: Id, d: Id)
    requires WellFounded(w, failing, registers, d) && Edge(w.Dependencies(), x, d)
    ensures d in w.manifests && !Leads(w.Dependencies(), d, x)
  {
    var g := w.Dependencies();
    assert Reaches(g, d, d);
    if Leads(g, d, x) {
      EdgeLeads(g, x, d);
      LeadsTransitive(g, d, x, d);
      assert false;
    }
  }

  lemma DecidedFinally(w: World, strict: bool, failing: set<Id>, registers: set<Id>, order: seq<Id>, manifests: map<Id, Manifest>,
                       before: map<Id, Status>, trace: seq<map<Id, Status>>, states: map<Id, Status>)
    requires BeforeLoad(w, strict, failing, order, manifests, before) && states.Keys == before.Keys
    requires LoadedUpTo(w, failing, registers, order, states, |order|) && |trace| == |order|
    requires forall j: nat | j < |order| :: DecidedAt(w, failing, registers, order, manifests, before, trace[j], states, j)
    ensures forall x | x in order :: x in manifests && x in before && states[x] == Choice(manifests, registers, before, states, x)
  {
    hide BeforeLoad, LoadedUpTo, Ready;
    forall x | x in order
      ensures x in manifests && x in before && states[x] == Choice(manifests, registers, before, states, x)
    {
      var j :| 0 <= j < |order| && order[j] == x;
      assert DecidedAt(w, failing, registers, order, manifests, before, trace[j], states, j);
      if before[x] != Degraded {
        ReadyIsFinal(w, strict, failing, registers, order, manifests, before, trace[j], states, j);
      }
    }
  }

  // A later decision does not touch an earlier one.
  lemma DecidedKept(w: World, failing: set<Id>, registers: set<Id>, order: seq<Id>, manifests: map<Id, Manifest>,
                    before: map<Id, Status>, now: map<Id, Status>, states: map<Id, Status>, j: nat, i: nat, status: Status)
    requires NoDuplicates(order) && j < i < |order| && DecidedAt(w, failing, registers, order, manifests, before, now, states, j)
    ensures DecidedAt(w, failing, registers, order, manifests, before, now, states[order[i] := status], j)
  {}

  lemma Decide(w: World, strict: bool, failing: set<Id>, registers: set<Id>, order: seq<Id>, manifests: map<Id, Manifest>,
               before: map<Id, Status>, now: map<Id, Status>, trace: seq<map<Id, Status>>, i: nat, status: Status)
    requires BeforeLoad(w, strict, failing, order, manifests, before) && now.Keys == before.Keys
    requires i < |order| && |trace| == i && LoadedUpTo(w, failing, registers, order, now, i)
    requires order[i] in manifests && order[i] in before && status == Choice(manifests, registers, before, now, order[i])
    requires forall j: nat | j < i :: DecidedAt(w, failing, registers, order, manifests, before, trace[j], now, j)
    ensures var states, seen := now[order[i] := status], trace + [now];
      forall j: nat | j < i + 1 :: DecidedAt(w, failing, registers, order, manifests, before, seen[j], states, j)
  {
    hide LoadedUpTo, Choice;
    var states, seen := now[order[i] := status], trace + [now];
    forall j: nat | j < i + 1 ensures DecidedAt(w, failing, registers, order, manifests, before, seen[j], states, j) {
      if j < i {
        DecidedKept(w, failing, registers, order, manifests, before, trace[j], now, j, i, status);
      }
    }
  }

  // What the pass decides for the i-th id is what well-foundedness says.
  lemma LoadDecision(w: World, strict: bool, failing: set<Id>, registers: set<Id>, order: seq<Id>,
                     manifests: map<Id, Manifest>, s0: map<Id, Status>, states: map<Id, Status>, i: nat)
    requires BeforeLoad(w, strict, failing, order, manifests, s0) && states.Keys == s0.Keys
    requires i < |order| && LoadedUpTo(w, failing, registers, order, states, i)
    requires order[i] in s0 && states[order[i]] == s0[order[i]]
    ensures order[i] in manifests
    ensures states[order[i]] == Degraded ==> !WellFounded(w, failing, registers, order[i])
    ensures states[order[i]] != Degraded ==>
              (WellFounded(w, failing, registers, order[i]) <==> Ready(manifests, states, order[i]) && order[i] in registers)
  {
    var g, x := w.Dependencies(), order[i];
    assert x in order && Prepared(w, failing, manifests, s0, x);
    assert Reaches(g, x, x);
    if states[x] != Degraded {
      if Ready(manifests, states, x) && x in registers {
        WellFoundedFromDependencies(w, failing, registers, x);
      }
      if WellFounded(w, failing, registers, x) {
        forall d | d in manifests[x].dependencies ensures d in states && states[d] == Loaded {
          assert Edge(g, x, d);
          EdgeLeads(g, x, d);
          WellFoundedBelow(w, failing, registers, x, d);
          assert Healthy(w, failing, registers, d);
          NoWayBack(g, x, d);
          assert FirstAt(w, strict, order, i);
          assert d in order[..i];
          assert Prepared(w, failing, manifests, s0, d);
        }
      }
    }
  }

  lemma LoadRecorded(w: World, failing: set<Id>, registers: set<Id>, order: seq<Id>, states: map<Id, Status>, i: nat, status: Status)
    requires NoDuplicates(order) && i < |order| && order[i] in states
    requires LoadedUpTo(w, failing, registers, order, states, i)
    requires status == Loaded <==> WellFounded(w, failing, registers, order[i])
    ensures LoadedUpTo(w, failing, registers, order, states[order[i] := status], i + 1)
  {
    assert order[..i + 1] == order[..i] + [order[i]];
  }

  // In a strict pass the dependencies, all of them earlier in the order, are loaded.
  lemma StrictReady(w: World, failing: set<Id>, order: seq<Id>, manifests: map<Id, Manifest>, s0: map<Id, Status>,
                    states: map<Id, Status>, i: nat)
    requires BeforeLoad(w, true, failing, order, manifests, s0) && states.Keys == s0.Keys && i < |order|
    requires forall j | 0 <= j < i :: order[j] in states && states[order[j]] == Loaded
    ensures order[i] in manifests && order[i] in s0 && s0[order[i]] != Degraded && Ready(manifests, states, order[i])
  {
    var x := order[i];
    assert x in order && Prepared(w, failing, manifests, s0, x);
    forall d | d in manifests[x].dependencies ensures d in states && states[d] == Loaded {
      assert Edge(w.Dependencies(), x, d) && FirstAt(w, true, order, i);
      assert d in order[..i];
    }
  }

  lemma NothingLoaded(w: World, strict: bool, failing: set<Id>, registers: set<Id>, order: seq<Id>,
                      manifests: map<Id, Manifest>, states: map<Id, Status>)
    requires BeforeLoad(w, strict, failing, order, manifests, states)
    ensures LoadedUpTo(w, failing, registers, order, states, 0)
    ensures forall x | x in order :: x in states && x in manifests
    ensures NoDuplicates(order) && forall x | x in states :: states[x] != Loaded
  {
    forall x | x in order ensures x in states && x in manifests { assert Prepared(w, failing, manifests, states, x); }
  }

  /* ----- from the walk to the pass ----- */

  lemma {:induction false} OrderFallsAlongPath(w: World, order: seq<Id>, p: seq<Id>, i: nat, n: nat) returns (m: nat)
    requires DependenciesFirst(w, true, order)
    requires Path(w.Dependencies(), p) && i < |p| && n < |order| && order[n] == p[0]
    ensures m < |order| && order[m] == p[i] && (if i == 0 then m == n else m < n)
  {
    if i == 0 {
      m := n;
    } else {
      var k := OrderFallsAlongPath(w, order, p, i - 1, n);
      assert Edge(w.Dependencies(), p[i - 1], p[i]);
      assert FirstAt(w, true, order, k);
      m :| 0 <= m < k && order[m] == p[i];
    }
  }

  // What a strict walk has ordered lies on no cycle.
  lemma StrictOrderAcyclic(w: World, order: seq<Id>, x: Id)
    requires DependenciesFirst(w, true, order) && NoDuplicates(order) && x in order
    ensures !OnCycle(w.Dependencies(), x)
  {
    if OnCycle(w.Dependencies(), x) {
      var p :| Path(w.Dependencies(), p) && p[0] == x && p[|p| - 1] == x;
      var n :| 0 <= n < |order| && order[n] == x;
      var m := OrderFallsAlongPath(w, order, p, |p| - 1, n);
      assert false;
    }
  }

  // The record of an ordered id after the walk.
  lemma OrderedRecord(w: World, strict: bool, k: Walk, failing: set<Id>, states: map<Id, Status>, x: Id)
    requires RecordsOK(w, k) && k.visiting == {} && x in k.visited && x in w.manifests && x in states && x in k.states
    requires states[x] == if x in failing then Degraded else k.states[x]
    ensures Prepared(w, failing, k.manifests, states, x)
  {
    assert NodeOK(w, k, x);
  }

  lemma NothingLoadedYet(w: World, k: Walk, x: Id)
    requires RecordsOK(w, k) && x in k.states
    ensures k.states[x] != Loaded && k.states[x] != Blocked
  {
    assert NodeOK(w, k, x);
  }

  // A resolved walk with its prepared owners is what the load pass expects.
  lemma ResolvedIsPrepared(w: World, strict: bool, k: Walk, requested: seq<Id>, failing: set<Id>, states: map<Id, Status>)
    requires Resolved(w, strict, k, requested)
    requires states.Keys == k.states.Keys
    requires forall x | x in states :: states[x] == if x in k.order && x in failing then Degraded else k.states[x]
    ensures forall x | x in k.order :: Prepared(w, failing, k.manifests, states, x)
    ensures forall x | x in states :: states[x] != Loaded && states[x] != Blocked
  {
    assert forall x | x in k.order :: x in k.visited && x in w.manifests;
    KeysMatch(w, strict, k);
    hide OrderOK, RecordsOK, Prepared, World.Sound, World.Dependencies;
    forall x | x in k.order ensures Prepared(w, failing, k.manifests, states, x) {
      OrderedRecord(w, strict, k, failing, states, x);
    }
    forall x | x in states ensures states[x] != Loaded && states[x] != Blocked {
      NothingLoadedYet(w, k, x);
    }
  }

  lemma ReadyToLoad(w: World, strict: bool, k: Walk, requested: seq<Id>, failing: set<Id>, states: map<Id, Status>)
    requires Resolved(w, strict, k, requested)
    requires states.Keys == k.states.Keys
    requires forall x | x in states :: states[x] == if x in k.order && x in failing then Degraded else k.states[x]
    requires strict ==> forall x | x in k.order :: x !in failing
    ensures BeforeLoad(w, strict, failing, k.order, k.manifests, states)
  {
    ResolvedIsPrepared(w, strict, k, requested, failing, states);
    assert DependenciesFirst(w, strict, k.order) && NoDuplicates(k.order);
    assert forall x | x in k.order :: strict ==> w.Sound(x);
    hide Resolved, DependenciesFirst, NoDuplicates, World.Sound, World.Dependencies;
    if strict {
      forall x | x in k.order ensures x in states && states[x] != Degraded {
        assert Prepared(w, failing, k.manifests, states, x);
        StrictOrderAcyclic(w, k.order, x);
      }
    }
  }

  /* ----- the configuration ----- */

  predicate NoneBlank(raw: seq<string>) {
    forall r | r in raw :: Strip(r) != ""
  }

  lemma SameBlanks(raw: seq<string>)
    ensures NoneBlank(Deduplicated(raw)) <==> NoneBlank(raw)
  {}

  // The ids the configuration asks for: repeated entries go before the space around them is
  // stripped.
  function Configured(raw: seq<string>): seq<Id> {
    Stripped(Deduplicated(raw))
  }

  lemma TwoConfigured(r: string, t: string)
    requires r != t
    ensures Configured([r, t]) == [Strip(r), Strip(t)]
  {
    hide Strip;
    assert [r, t][..1] == [r] && [r][..0] == [];
    assert Deduplicated([r]) == [r];
    hide Deduplicated;
    assert Deduplicated([r, t]) == [r, t] by { TwoAreKept(r, t); }
  }

  lemma TwoAreKept(r: string, t: string)
    requires r != t
    ensures Deduplicated([r, t]) == [r, t]
  {
    DistinctIsKept([r, t]);
  }

  // So the same id, whichever it is, can be asked for twice.
  lemma ConfiguredMayRepeat(x: Id)
    requires x != "" && Trimmed(x)
    ensures Configured([x, " " + x]) == [x, x]
  {
    assert |" " + x| == |x| + 1;
    StripIsTrimmed(x);
    StripsOneSpace(x);
    hide Strip, Configured, Trimmed;
    TwoConfigured(x, " " + x);
  }

  lemma StripsOneSpace(s: string)
    requires s != "" && Trimmed(s)
    ensures Strip(" " + s) == s
  {
    assert StripLeft(" " + s) == s by { assert (" " + s)[1..] == s; }
  }

  function Only(xs: seq<Id>, known: set<Id>): (r: seq<Id>)
    ensures forall x :: x in r <==> x in xs && x in known
  {
    if xs == [] then []
    else Only(xs[..|xs| - 1], known) + if xs[|xs| - 1] in known then [xs[|xs| - 1]] else []
  }

  function Unknown(xs: seq<Id>, known: set<Id>): set<Id> {
    set x | x in xs && x !in known
  }

  lemma SplitNext(xs: seq<Id>, known: set<Id>, i: nat)
    requires i < |xs|
    ensures Only(xs[..i + 1], known) == Only(xs[..i], known) + if xs[i] in known then [xs[i]] else []
    ensures Unknown(xs[..i + 1], known) == Unknown(xs[..i], known) + if xs[i] in known then {} else {xs[i]}
  {
    assert xs[..i + 1] == xs[..i] + [xs[i]] && xs[..i + 1][..i] == xs[..i];
  }

  lemma NoneUnknown(xs: seq<Id>, known: set<Id>)
    ensures Unknown(xs, known) == {} <==> forall x | x in xs :: x in known
  {
    if x :| x in xs && x !in known { assert x in Unknown(xs, known); }
  }

  // The configured ids, with a stub in state MISSING for each that is not installed.
  function WithStubs(w: World, configured: seq<Id>): World {
    var all := w.manifests.Keys + set x | x in configured;
    w.(manifests := map x | x in all :: if x in w.manifests then w.manifests[x] else STUB,
       states := map x | x in all :: if x in w.manifests && x in w.states then w.states[x] else Missing)
  }

  lemma StubsKeepValid(w: World, configured: seq<Id>)
    requires w.Valid()
    ensures WithStubs(w, configured).Valid()
  {}

  lemma StubsAreAdded(w: World, configured: seq<Id>, unknown: set<Id>)
    requires w.Valid() && unknown == set x | x in configured && x !in w.manifests
    ensures w.manifests + (map x | x in unknown :: STUB) == WithStubs(w, configured).manifests
    ensures w.states + (map x | x in unknown :: Missing) == WithStubs(w, configured).states
  {}

  lemma StubsKeepEntryPoints(w: World, configured: seq<Id>)
    ensures WithStubs(w, configured).entryPoints == w.entryPoints
  {}

  // A configured id that is not installed counts as installed and sound from then on, with
  // no dependencies: when another plugin depends on it, it is ordered and loaded.
  lemma ConfiguredStubIsSound(w: World, configured: seq<Id>, x: Id)
    requires w.Valid() && x in configured && x !in w.manifests
    ensures var w' := WithStubs(w, configured);
      w'.Sound(x) && w'.states[x] == Missing && forall d :: !Edge(w'.Dependencies(), x, d)
  {}

  /* ----- what a boot guarantees ----- */

  ghost predicate Booted(w: World, strict: bool, failing: set<Id>, registers: set<Id>, requested: seq<Id>,
                         order: seq<Id>, states: map<Id, Status>)
  {
    && NoDuplicates(order)
    && DependenciesFirst(w, strict, order)
    && (forall x :: x in order <==> Reached(w.Dependencies(), requested, x) && x in w.manifests)
    && (forall x | x in order :: x in states)
    && (forall x | x in states ::
          states[x] == Loaded <==>
          Reached(w.Dependencies(), requested, x) && WellFounded(w, failing, registers, x))
  }

  // The records a boot leaves of what it has ordered: the manifests it has gone by, and a
  // status that says so.
  ghost predicate ManifestsLeft(w: World, order: seq<Id>, manifests: map<Id, Manifest>, states: map<Id, Status>) {
    forall x | x in order ::
      && x in w.manifests && x in w.states && x in manifests && x in states
      && manifests[x] == w.SeenManifest(x) && states[x] in {Loaded, Blocked, Degraded}
  }

  lemma OrderedManifests(w: World, strict: bool, k: Walk)
    requires WalkOK(w, strict, k) && k.visiting == {}
    ensures forall x | x in k.order ::
              x in w.manifests && x in w.states && x in k.manifests && k.manifests[x] == w.SeenManifest(x)
  {
    hide World.Sound, World.SeenManifest, World.SeenExtension, World.LeftStatus, DependenciesFirst;
    forall x | x in k.order
      ensures x in w.manifests && x in w.states && x in k.manifests && k.manifests[x] == w.SeenManifest(x)
    {
      assert x in k.visited && x in w.manifests;
      assert NodeOK(w, k, x);
    }
  }

  lemma StatusesLeft(w: World, order: seq<Id>, manifests: map<Id, Manifest>, registers: set<Id>,
                     before: map<Id, Status>, states: map<Id, Status>)
    requires forall x | x in order :: x in w.manifests && x in w.states && x in manifests && manifests[x] == w.SeenManifest(x)
    requires forall x | x in order :: x in before && x in states && states[x] == Choice(manifests, registers, before, states, x)
    ensures ManifestsLeft(w, order, manifests, states)
  {}

  // What a boot makes of an id it has ordered. It is DEGRADED when it cannot be used or prepared,
  // or when its dependencies are LOADED and it cannot be registered; it is BLOCKED when one of
  // them is not LOADED. A cycle closed there may degrade it, too.
  ghost predicate OrderedStatus(w: World, failing: set<Id>, registers: set<Id>, states: map<Id, Status>, x: Id) {
    && x in states && states[x] in {Loaded, Blocked, Degraded}
    && (!w.Sound(x) || x in failing ==> states[x] == Degraded)
    && (w.Sound(x) && x !in failing ==>
          && (states[x] == Blocked ==> exists d :: Edge(w.Dependencies(), x, d) && !(d in states && states[d] == Loaded))
          && (states[x] == Loaded ==> x in registers && forall d | Edge(w.Dependencies(), x, d) :: d in states && states[d] == Loaded)
          && (states[x] == Degraded ==>
                || OnCycle(w.Dependencies(), x)
                || (x !in registers && forall d | Edge(w.Dependencies(), x, d) :: d in states && states[d] == Loaded)))
  }

  // The others have not been touched, but for those met that are not installed.
  ghost predicate OtherStatus(w: World, requested: seq<Id>, states: map<Id, Status>, x: Id) {
    if x in w.manifests then
      !Reached(w.Dependencies(), requested, x) && x in w.states && x in states && states[x] == w.states[x]
    else if Reached(w.Dependencies(), requested, x) then x in states && states[x] == Missing
    else x !in states
  }

  lemma OrderedStatuses(w: World, failing: set<Id>, registers: set<Id>, manifests: map<Id, Manifest>,
                        before: map<Id, Status>, states: map<Id, Status>, x: Id)
    requires Prepared(w, failing, manifests, before, x) && x in states
    requires states[x] == Choice(manifests, registers, before, states, x)
    ensures OrderedStatus(w, failing, registers, states, x)
  {
    if w.Sound(x) {
      assert forall d :: Edge(w.Dependencies(), x, d) <==> d in manifests[x].dependencies;
    }
    hide World.Sound, World.Dependencies;
  }

  lemma OtherStatuses(w: World, strict: bool, k: Walk, requested: seq<Id>, states: map<Id, Status>, x: Id)
    requires Resolved(w, strict, k, requested) && x !in k.order && states.Keys == k.states.Keys
    requires x in states ==> states[x] == k.states[x]
    ensures OtherStatus(w, requested, states, x)
  {
    if x in states { assert NodeOK(w, k, x); }
    hide World.Sound, World.Dependencies, Reached;
  }

  lemma WellFoundedIsSound(w: World, failing: set<Id>, registers: set<Id>, x: Id)
    requires WellFounded(w, failing, registers, x)
    ensures Healthy(w, failing, registers, x) && x in w.manifests && !OnCycle(w.Dependencies(), x)
  {
    assert Reaches(w.Dependencies(), x, x);
  }

  lemma BootComplete(w: World, strict: bool, failing: set<Id>, registers: set<Id>, requested: seq<Id>, k: Walk, states: map<Id, Status>)
    requires Resolved(w, strict, k, requested) && LoadedUpTo(w, failing, registers, k.order, states, |k.order|)
    requires forall x | x in k.order :: x in states
    ensures Booted(w, strict, failing, registers, requested, k.order, states)
  {
    assert k.order[..|k.order|] == k.order;
    forall x | x in states && WellFounded(w, failing, registers, x) ensures x in w.manifests {
      WellFoundedIsSound(w, failing, registers, x);
    }
  }

  // The LOADED set is closed under dependencies and acyclic, and dependencies come first
  // in the load order.
  lemma LoadedClosedAndOrdered(w: World, strict: bool, failing: set<Id>, registers: set<Id>, requested: seq<Id>,
                               order: seq<Id>, states: map<Id, Status>, x: Id, d: Id)
    returns (i: nat, j: nat)
    requires Booted(w, strict, failing, registers, requested, order, states)
    requires x in states && states[x] == Loaded && Edge(w.Dependencies(), x, d)
    ensures d in states && states[d] == Loaded && !OnCycle(w.Dependencies(), x)
    ensures j < i < |order| && order[i] == x && order[j] == d
  {
    var g := w.Dependencies();
    WellFoundedIsSound(w, failing, registers, x);
    EdgeLeads(g, x, d);
    WellFoundedBelow(w, failing, registers, x, d);
    WellFoundedIsSound(w, failing, registers, d);
    ReachedStep(g, requested, x, d);
    NoWayBack(g, x, d);
    i :| 0 <= i < |order| && order[i] == x;
    assert FirstAt(w, strict, order, i);
    assert d in order[..i];
    j :| 0 <= j < i && order[j] == d;
  }

  // Everything the request reaches is loaded exactly when all of it is healthy and none of
  // it lies on a cycle.
  lemma AllLoadedIff(w: World, strict: bool, failing: set<Id>, registers: set<Id>, requested: seq<Id>,
                     order: seq<Id>, states: map<Id, Status>)
    requires Booted(w, strict, failing, registers, requested, order, states)
    ensures (forall x | Reached(w.Dependencies(), requested, x) :: x in states && states[x] == Loaded)
       <==> (forall x | Reached(w.Dependencies(), requested, x) ::
               Healthy(w, failing, registers, x) && !OnCycle(w.Dependencies(), x))
  {
    var g := w.Dependencies();
    if forall x | Reached(g, requested, x) :: Healthy(w, failing, registers, x) && !OnCycle(g, x) {
      forall x | Reached(g, requested, x) ensures x in states && states[x] == Loaded {
        forall y | Reaches(g, x, y) ensures Healthy(w, failing, registers, y) && !OnCycle(g, y) {
          ReachedStep(g, requested, x, y);
        }
      }
    }
    if forall x | Reached(g, requested, x) :: x in states && states[x] == Loaded {
      forall x | Reached(g, requested, x) ensures Healthy(w, failing, registers, x) && !OnCycle(g, x) {
        WellFoundedIsSound(w, failing, registers, x);
      }
    }
  }

  // What a strict start-up refuses is not well-founded, and neither is what needs it.
  lemma RefusedIsNotWellFounded(w: World, failing: set<Id>, registers: set<Id>, x: Id, y: Id)
    requires Reaches(w.Dependencies(), x, y) && (!w.Sound(y) || OnCycle(w.Dependencies(), y))
    ensures !WellFounded(w, failing, registers, x)
  {}
}
