/**
 What the matching of tool callbacks guarantees over all interleavings: slots are claimed
 once, and callbacks that carry call ids find their slots and their runs exactly when no two
 slots share an index.
 */
module ToolMatching {
  import opened Outcomes
  import opened Sequences
  import opened ToolCallbacks

  /* ----- every slot is claimed once ----- */

  function Choices(starts: seq<Start>, slots: seq<Slot>): (r: seq<Slot>)
    ensures |r| == |starts|
    decreases |starts|
  {
    if starts == [] then []
    else
      var before := Choices(starts[..|starts| - 1], slots);
      before + [Choose(starts[|starts| - 1], slots, Indices(before))]
  }

  lemma {:induction false} ChoiceAt(starts: seq<Start>, slots: seq<Slot>, j: nat)
    requires j < |starts|
    ensures Choices(starts, slots)[j] == Choose(starts[j], slots, Indices(Choices(starts, slots)[..j]))
    decreases |starts|
  {
    var front := starts[..|starts| - 1];
    var before, all := Choices(front, slots), Choices(starts, slots);
    assert all == before + [Choose(starts[|starts| - 1], slots, Indices(before))];
    hide Choose, Indices, Choices;
    if j < |starts| - 1 {
      ChoiceAt(front, slots, j);
      assert front[j] == starts[j];
      AppendedAt(before, all, j);
    } else {
      assert all[..j] == before;
    }
  }

  lemma AppendedAt(before: seq<Slot>, all: seq<Slot>, j: nat)
    requires j < |before| && |all| == |before| + 1 && all == before + [all[|before|]]
    ensures all[..j] == before[..j] && all[j] == before[j]
  {}

  // Whatever the callbacks of one response carry, two of them get different slots, unless all
  // slots have been given out and the later one is made up.
  lemma ClaimedOnce(starts: seq<Start>, slots: seq<Slot>, i: nat, j: nat)
    requires i < j < |starts|
    ensures var cs := Choices(starts, slots);
      || cs[j].index != cs[i].index
      || (cs[j].id == "" && forall t | t in slots :: exists k :: 0 <= k < j && cs[k].index == t.index)
  {
    var cs := Choices(starts, slots);
    ChoiceAt(starts, slots, j);
    ChosenIsFree(starts[j], slots, Indices(cs[..j]));
    hide Choose, Choices;
    assert cs[i] in cs[..j] by { assert cs[..j][i] == cs[i]; }
    forall t | t in slots && t.index in Indices(cs[..j]) ensures exists k :: 0 <= k < j && cs[k].index == t.index {
      var c :| c in cs[..j] && c.index == t.index;
      var k :| 0 <= k < j && cs[..j][k] == c;
      assert cs[k].index == t.index;
    }
  }

  /* ----- callbacks with call ids, in any order ----- */

  function Ids(slots: seq<Slot>): set<string> {
    set s | s in slots :: s.id
  }

  // The id an event starts, or ends.
  function StartOf(e: Event): set<string> {
    if e.ToolStart? then {ExplicitId(e.start)} else {}
  }

  function EndOf(e: Event): set<string> {
    if e.ToolEnd? then {e.end.callId} else {}
  }

  // Each slot is started at most once and by its id, and ended at most once after that.
  ghost predicate InOrder(slots: seq<Slot>, events: seq<Event>, started: set<string>, ended: set<string>)
    decreases |events|
  {
    events != [] ==>
      && !events[0].Response?
      && StartOf(events[0]) <= Ids(slots) - started
      && EndOf(events[0]) <= started - ended
      && InOrder(slots, events[1..], started + StartOf(events[0]), ended + EndOf(events[0]))
  }

  // What the tracker then knows: the slots started are claimed, and what is not ended is
  // pending under its own call id.
  ghost predicate Tracks(t: Tracker, slots: seq<Slot>, started: set<string>, ended: set<string>) {
    && t.slots == slots && started <= Ids(slots)
    && t.claimed == (set s | s in slots && s.id in started :: s.index)
    && t.byCall == (map c | c in started - ended :: c)
    && RunIds(t.pending) == started - ended
    && (forall p | p in t.pending :: p.callId == p.runId)
  }

  lemma StartChosen(t: Tracker, slots: seq<Slot>, started: set<string>, ended: set<string>, e: Start, s: Slot)
    requires DistinctIds(slots) && DistinctIndices(slots) && Tracks(t, slots, started, ended)
    requires s in slots && ExplicitId(e) == s.id && s.id !in started
    ensures Choose(e, t.slots, t.claimed) == s && RunId(s, e) == s.id && s.id != ""
  {
    hide RunIds;
    assert s.index !in t.claimed by {
      if u :| u in slots && u.id in started && u.index == s.index { SameIndex(slots, u, s); }
    }
    ChosenById(e, slots, t.claimed, s);
    hide Choose;
  }

  lemma ClaimedGrows(slots: seq<Slot>, started: set<string>, s: Slot)
    requires DistinctIds(slots) && s in slots
    ensures (set u | u in slots && u.id in started + {s.id} :: u.index) == (set u | u in slots && u.id in started :: u.index) + {s.index}
  {
    forall u | u in slots && u.id == s.id ensures u == s { SameId(slots, u, s); }
    hide DistinctIds;
  }

  lemma StartTracked(t: Tracker, slots: seq<Slot>, started: set<string>, ended: set<string>, e: Start, s: Slot)
    requires DistinctIds(slots) && DistinctIndices(slots) && Tracks(t, slots, started, ended) && ended <= started
    requires s in slots && ExplicitId(e) == s.id && s.id !in started
    ensures Choose(e, t.slots, t.claimed) == s && RunId(s, e) == s.id
    ensures Tracks(Started(t, e), slots, started + {s.id}, ended)
  {
    StartChosen(t, slots, started, ended, e, s);
    ClaimedGrows(slots, started, s);
    AssignedRuns(t.pending, Pending(s.id, e.name, s.id));
    AssignedKeepsCalls(t.pending, Pending(s.id, e.name, s.id));
    assert s.id in Ids(slots);
    var t' := Started(t, e);
    StartedFields(t, e, s);
    hide Choose, Assigned, RunIds, RunId, ExplicitId, DistinctIds, DistinctIndices, Ids, Started;
    OneMoreStarted(started, ended, s.id);
  }

  lemma StartedFields(t: Tracker, e: Start, s: Slot)
    requires Choose(e, t.slots, t.claimed) == s && RunId(s, e) == s.id && s.id != ""
    ensures var t' := Started(t, e);
      && t'.slots == t.slots && t'.claimed == t.claimed + {s.index} && t'.byCall == t.byCall[s.id := s.id]
      && t'.pending == Assigned(t.pending, Pending(s.id, e.name, s.id))
  {
    hide Choose, Assigned, RunId;
  }

  lemma OneMoreStarted(started: set<string>, ended: set<string>, id: string)
    requires ended <= started && id !in started
    ensures (map c | c in started - ended :: c)[id := id] == map c | c in started + {id} - ended :: c
    ensures started - ended + {id} == started + {id} - ended
  {}

  lemma {:induction false} AssignedKeepsCalls(runs: seq<Pending>, run: Pending)
    requires run.callId == run.runId && forall p | p in runs :: p.callId == p.runId
    ensures forall p | p in Assigned(runs, run) :: p.callId == p.runId
  {
    if runs != [] { AssignedKeepsCalls(runs[1..], run); }
  }

  lemma EndTracked(t: Tracker, slots: seq<Slot>, started: set<string>, ended: set<string>, e: End)
    requires DistinctIds(slots) && Tracks(t, slots, started, ended) && e.callId in started - ended
    ensures Resolved(t, e) == e.callId
    ensures Tracks(Ended(t, e), slots, started, ended + {e.callId})
  {
    assert e.callId != "" by {
      var s :| s in slots && s.id == e.callId;
    }
    DroppedRuns(t.pending, e.callId);
    hide RunIds, DistinctIds, FirstNamed;
    assert Ended(t, e).byCall == (map c | c in started - (ended + {e.callId}) :: c);
  }

  lemma DroppedRuns(runs: seq<Pending>, runId: string)
    ensures RunIds(Dropped(runs, runId)) == RunIds(runs) - {runId}
  {
    forall x | x in RunIds(runs) && x != runId ensures x in RunIds(Dropped(runs, runId)) {
      var p :| p in runs && p.runId == x;
      assert p in Dropped(runs, runId);
    }
  }

  function StartedIds(events: seq<Event>): set<string> {
    set e | e in events && e.ToolStart? :: ExplicitId(e.start)
  }

  function EndedIds(events: seq<Event>): set<string> {
    set e | e in events && e.ToolEnd? :: e.end.callId
  }

  // For every interleaving of starts and ends that carry call ids: each start gets the slot
  // of its id, and each end resolves to the run that was started for the same id. Neither
  // depends on the order of events, nor on the run ids of the graph.
  lemma {:induction false} CallbacksMatch(t: Tracker, slots: seq<Slot>, events: seq<Event>, started: set<string>, ended: set<string>, i: nat)
    requires DistinctIds(slots) && DistinctIndices(slots) && Tracks(t, slots, started, ended) && ended <= started
    requires InOrder(slots, events, started, ended) && i < |events|
    ensures var now := Run(t, events[..i]);
      match events[i]
      case Response(_) => false
      case ToolStart(e) => Choose(e, now.slots, now.claimed) in slots && Choose(e, now.slots, now.claimed).id == ExplicitId(e)
      case ToolEnd(e) => Resolved(now, e) == e.callId && e.callId in RunIds(now.pending)
    decreases |events|
  {
    hide Choose, Resolved, Ended, Started, DistinctIds, DistinctIndices;
    var t' := OneTracked(t, slots, events[0], started, ended);
    if i > 0 {
      assert events[1..][..i - 1] == events[..i][1..] && events[1..][i - 1] == events[i] && events[..i][0] == events[0];
      CallbacksMatch(t', slots, events[1..], started + StartOf(events[0]), ended + EndOf(events[0]), i - 1);
    } else {
      assert events[..0] == [];
    }
  }

  lemma OneTracked(t: Tracker, slots: seq<Slot>, e: Event, started: set<string>, ended: set<string>) returns (t': Tracker)
    requires DistinctIds(slots) && DistinctIndices(slots) && Tracks(t, slots, started, ended) && ended <= started
    requires !e.Response? && StartOf(e) <= Ids(slots) - started && EndOf(e) <= started - ended
    ensures t' == After(t, e)
    ensures Tracks(t', slots, started + StartOf(e), ended + EndOf(e))
    ensures e.ToolStart? ==> Choose(e.start, t.slots, t.claimed) in slots && Choose(e.start, t.slots, t.claimed).id == ExplicitId(e.start)
    ensures e.ToolEnd? ==> Resolved(t, e.end) == e.end.callId && e.end.callId in RunIds(t.pending)
  {
    hide Choose, Resolved, DistinctIds, DistinctIndices;
    t' := After(t, e);
    match e
    case ToolStart(start) =>
      assert ExplicitId(start) in StartOf(e);
      var s :| s in slots && s.id == ExplicitId(start);
      StartTracked(t, slots, started, ended, start, s);
      assert ended + {} == ended;
    case ToolEnd(end) =>
      assert end.callId in EndOf(e);
      EndTracked(t, slots, started, ended, end);
      assert started + {} == started;
  }

  // When everything started has ended, nothing is left pending and no alias remains.
  lemma {:induction false} AllEnded(t: Tracker, slots: seq<Slot>, events: seq<Event>, started: set<string>, ended: set<string>)
    requires DistinctIds(slots) && DistinctIndices(slots) && Tracks(t, slots, started, ended) && ended <= started
    requires InOrder(slots, events, started, ended) && AliasesPending(t)
    requires started + StartedIds(events) == ended + EndedIds(events)
    ensures Run(t, events).pending == [] && Run(t, events).byCall == map[] && Run(t, events).byNode == map[]
    decreases |events|
  {
    hide Choose, Resolved, Ended, Started, DistinctIds, DistinctIndices;
    if events == [] {
      assert started - ended == {};
      SomeRuns(t.pending);
    } else {
      var e, rest := events[0], events[1..];
      assert events == [e] + rest;
      var t' := OneTracked(t, slots, e, started, ended);
      EventKeepsAliases(t, e);
      var started', ended' := started + StartOf(e), ended + EndOf(e);
      assert started' + StartedIds(rest) == started + StartedIds(events) by { NextIds(e, rest); }
      assert ended' + EndedIds(rest) == ended + EndedIds(events) by { NextIds(e, rest); }
      AllEnded(t', slots, rest, started', ended');
    }
  }

  lemma SomeRuns(runs: seq<Pending>)
    ensures runs != [] ==> RunIds(runs) != {}
  {
    if runs != [] { assert runs[0].runId in RunIds(runs); }
  }

  lemma NextIds(e: Event, rest: seq<Event>)
    ensures StartedIds([e] + rest) == StartOf(e) + StartedIds(rest)
    ensures EndedIds([e] + rest) == EndOf(e) + EndedIds(rest)
  {
    assert forall x :: x in [e] + rest <==> x == e || x in rest;
  }

  // The tracker when a response has just been announced and nothing is pending.
  function Fresh(slots: seq<Slot>): Tracker {
    Tracker(slots, {}, map[], map[], [])
  }

  // Each start gets the slot of its id, each end the run started for the same id.
  ghost predicate AllMatched(slots: seq<Slot>, events: seq<Event>) {
    forall i | 0 <= i < |events| :: MatchedAt(Run(Fresh(slots), events[..i]), slots, events[i])
  }

  ghost predicate MatchedAt(now: Tracker, slots: seq<Slot>, e: Event) {
    match e
    case Response(_) => false
    case ToolStart(start) =>
      Choose(start, now.slots, now.claimed) in slots && Choose(start, now.slots, now.claimed).id == ExplicitId(start)
    case ToolEnd(end) => Resolved(now, end) == end.callId && end.callId in RunIds(now.pending)
  }

  ghost predicate NothingLeft(t: Tracker) {
    t.pending == [] && t.byCall == map[] && t.byNode == map[]
  }

  lemma {:induction false} FreshTracks(slots: seq<Slot>)
    ensures Tracks(Fresh(slots), slots, {}, {}) && AliasesPending(Fresh(slots))
  {}

  // Every interleaving of starts and ends with call ids is matched exactly when no two slots
  // share an index.
  lemma {:induction false} CallbacksMatchIff(slots: seq<Slot>)
    requires DistinctIds(slots)
    ensures (forall events :: InOrder(slots, events, {}, {}) ==> AllMatched(slots, events)) <==> DistinctIndices(slots)
  {
    hide Choose, Resolved, DistinctIds, Ended, Started;
    FreshTracks(slots);
    if DistinctIndices(slots) {
      forall events, i | InOrder(slots, events, {}, {}) && 0 <= i < |events|
        ensures MatchedAt(Run(Fresh(slots), events[..i]), slots, events[i])
      {
        CallbacksMatch(Fresh(slots), slots, events, {}, {}, i);
      }
    } else {
      var i, j :| 0 <= i < j < |slots| && slots[i].index == slots[j].index;
      var events := Collision(slots[i], slots[j])[..2];
      DifferentIds(slots, i, j);
      CollisionFacts(slots, slots[i], slots[j]);
      assert events[..1] == [events[0]];
      hide InOrder;
      assert !AllMatched(slots, events);
    }
  }

  // And every interleaving in which all that is started ends leaves nothing behind exactly
  // then.
  lemma {:induction false} AllEndedIff(slots: seq<Slot>)
    requires DistinctIds(slots)
    ensures (forall events :: InOrder(slots, events, {}, {}) && StartedIds(events) == EndedIds(events) ==>
              NothingLeft(Run(Fresh(slots), events))) <==> DistinctIndices(slots)
  {
    hide Choose, Resolved, DistinctIds, Ended, Started;
    FreshTracks(slots);
    if DistinctIndices(slots) {
      forall events | InOrder(slots, events, {}, {}) && StartedIds(events) == EndedIds(events)
        ensures NothingLeft(Run(Fresh(slots), events))
      {
        assert {} + StartedIds(events) == {} + EndedIds(events);
        AllEnded(Fresh(slots), slots, events, {}, {});
      }
    } else {
      var i, j :| 0 <= i < j < |slots| && slots[i].index == slots[j].index;
      DifferentIds(slots, i, j);
      CollisionLeavesRun(slots, slots[i], slots[j]);
    }
  }

  /* ----- two slots with one index ----- */

  // Both are started, then both end; the second end tells nothing but its call id.
  function Collision(a: Slot, b: Slot): seq<Event> {
    [ToolStart(StartOfSlot(a, a)), ToolStart(StartOfSlot(b, a)), ToolEnd(End(a.id, "", "end")), ToolEnd(End(b.id, "", "end"))]
  }

  function StartOfSlot(s: Slot, other: Slot): Start {
    Start([], s.id, [], "start", "", "", other.id)
  }

  ghost predicate Collide(slots: seq<Slot>, a: Slot, b: Slot) {
    DistinctIds(slots) && a in slots && b in slots && a != b && a.index == b.index
  }

  lemma {:induction false} DifferentIds(slots: seq<Slot>, i: nat, j: nat)
    requires DistinctIds(slots) && i < j < |slots|
    ensures slots[i] != slots[j] && slots[i].id != slots[j].id
  {}

  lemma {:induction false} IdOfStart(s: Slot, other: Slot)
    ensures ExplicitId(StartOfSlot(s, other)) == s.id
  {}

  // The first start gets its slot; the second one gets another slot, or a made up one.
  lemma {:induction false} SecondIsWrong(slots: seq<Slot>, a: Slot, b: Slot)
    requires Collide(slots, a, b)
    ensures Choose(StartOfSlot(a, a), slots, {}) == a
    ensures var s := Choose(StartOfSlot(b, a), slots, {a.index});
      s.id != b.id && RunId(s, StartOfSlot(b, a)) != a.id && RunId(s, StartOfSlot(b, a)) != "" && s.id != a.id
  {
    IdOfStart(a, a);
    IdOfStart(b, a);
    ChosenById(StartOfSlot(a, a), slots, {}, a);
    ChosenIsFree(StartOfSlot(b, a), slots, {a.index});
    hide Choose;
    var s := Choose(StartOfSlot(b, a), slots, {a.index});
    assert a.id != "" && b.id != "";
    if s in slots && s.index != a.index {
      if s.id == a.id { SameId(slots, s, a); }
      if s.id == b.id { SameId(slots, s, b); }
    }
    assert |"_" + a.id| == |a.id| + 1;
  }

  lemma {:induction false} FirstStart(slots: seq<Slot>, a: Slot)
    requires Choose(StartOfSlot(a, a), slots, {}) == a && a.id != ""
    ensures Started(Fresh(slots), StartOfSlot(a, a)) ==
            Tracker(slots, {a.index}, map[a.id := a.id], map[], [Pending(a.id, "start", a.id)])
  {
    hide Choose;
  }

  lemma {:induction false} SecondStart(t: Tracker, a: Slot, b: Slot, s: Slot)
    requires t.pending == [Pending(a.id, "start", a.id)] && t.byCall == map[a.id := a.id] && t.byNode == map[]
    requires s == Choose(StartOfSlot(b, a), t.slots, t.claimed) && s.id != a.id && s.id != b.id && a.id != b.id
    requires RunId(s, StartOfSlot(b, a)) != a.id
    ensures var t' := Started(t, StartOfSlot(b, a));
      && a.id in t'.byCall && t'.byCall[a.id] == a.id && b.id !in t'.byCall && t'.byNode == map[]
      && t'.pending == [t.pending[0], Pending(RunId(s, StartOfSlot(b, a)), "start", s.id)]
  {
    hide Choose;
    AppendedRun(t.pending[0], Pending(RunId(s, StartOfSlot(b, a)), "start", s.id));
  }

  // What the two starts leave: the id of the second one is unknown.
  lemma {:induction false} AfterStarts(slots: seq<Slot>, a: Slot, b: Slot) returns (t: Tracker)
    requires Collide(slots, a, b)
    ensures t == Started(Started(Fresh(slots), StartOfSlot(a, a)), StartOfSlot(b, a))
    ensures a.id in t.byCall && t.byCall[a.id] == a.id && b.id !in t.byCall && t.byNode == map[]
    ensures exists p :: p in t.pending && p.runId != a.id && p.runId != ""
    ensures forall p | p in t.pending :: p.name == "start"
  {
    SecondIsWrong(slots, a, b);
    CollideIds(slots, a, b);
    FirstStart(slots, a);
    hide Choose, Started, RunId, StartOfSlot, Collide;
    var first := Started(Fresh(slots), StartOfSlot(a, a));
    var s := Choose(StartOfSlot(b, a), slots, {a.index});
    SecondStart(first, a, b, s);
    t := Started(first, StartOfSlot(b, a));
    assert t.pending[1] in t.pending;
  }

  lemma {:induction false} AppendedRun(p: Pending, run: Pending)
    requires p.runId != run.runId
    ensures Assigned([p], run) == [p, run]
  {
    assert [p][1..] == [];
  }

  lemma {:induction false} NoneNamed(runs: seq<Pending>, name: string)
    requires forall p | p in runs :: p.name != name
    ensures FirstNamed(runs, name) == None
  {
    if runs != [] {
      assert runs[0] in runs && forall p | p in runs[1..] :: p in runs;
      NoneNamed(runs[1..], name);
    }
  }

  lemma {:induction false} SecondMismatches(slots: seq<Slot>, a: Slot, b: Slot)
    requires Collide(slots, a, b)
    ensures !MatchedAt(Run(Fresh(slots), [Collision(a, b)[0]]), slots, Collision(a, b)[1])
  {
    SecondIsWrong(slots, a, b);
    var first := StartOfSlot(a, a);
    OneStarted(Fresh(slots), first);
    hide Choose, DistinctIds, Collide, RunId, ExplicitId, Run, StartOfSlot;
    IdOfStart(b, a);
  }

  lemma OneStarted(t: Tracker, e: Start)
    ensures Run(t, [ToolStart(e)]) == Started(t, e)
    ensures Started(t, e).slots == t.slots && Started(t, e).claimed == t.claimed + {Choose(e, t.slots, t.claimed).index}
  {
    assert [ToolStart(e)][1..] == [];
    hide Choose, Assigned;
  }

  lemma {:induction false} CollisionFacts(slots: seq<Slot>, a: Slot, b: Slot)
    requires Collide(slots, a, b)
    ensures var events := Collision(a, b);
      && InOrder(slots, events[..2], {}, {}) && InOrder(slots, events, {}, {})
      && StartedIds(events) == EndedIds(events) == {a.id, b.id}
      && !MatchedAt(Run(Fresh(slots), [events[0]]), slots, events[1])
  {
    SecondMismatches(slots, a, b);
    CollisionInOrder(slots, a, b);
    hide *;
  }

  lemma {:induction false} OneMoreInOrder(slots: seq<Slot>, e: Event, rest: seq<Event>, started: set<string>, ended: set<string>)
    requires !e.Response? && StartOf(e) <= Ids(slots) - started && EndOf(e) <= started - ended
    requires InOrder(slots, rest, started + StartOf(e), ended + EndOf(e))
    ensures InOrder(slots, [e] + rest, started, ended)
  {
    assert ([e] + rest)[1..] == rest;
  }

  lemma {:induction false} CollisionIds(a: Slot, b: Slot)
    ensures var events := Collision(a, b);
      && StartOf(events[0]) == {a.id} && StartOf(events[1]) == {b.id} && EndOf(events[2]) == {a.id} && EndOf(events[3]) == {b.id}
      && StartOf(events[2]) == StartOf(events[3]) == EndOf(events[0]) == EndOf(events[1]) == {}
  {
    IdOfStart(a, a);
    IdOfStart(b, a);
    hide ExplicitId;
  }

  lemma {:induction false} CollisionInOrder(slots: seq<Slot>, a: Slot, b: Slot)
    requires Collide(slots, a, b)
    ensures var events := Collision(a, b);
      && InOrder(slots, events[..2], {}, {}) && InOrder(slots, events, {}, {})
      && StartedIds(events) == EndedIds(events) == {a.id, b.id}
  {
    var events := Collision(a, b);
    CollisionIds(a, b);
    CollideIds(slots, a, b);
    assert a.id in Ids(slots) && b.id in Ids(slots);
    var e0, e1, e2, e3 := events[0], events[1], events[2], events[3];
    assert events[..2] == [e0] + ([e1] + []);
    assert events == [e0] + ([e1] + ([e2] + ([e3] + [])));
    hide *;
    StartsInOrder(slots, a, b, e0, e1, e2, e3);
    FourIds(e0, e1, e2, e3, a.id, b.id);
  }

  lemma {:induction false} FourIds(e0: Event, e1: Event, e2: Event, e3: Event, a: string, b: string)
    requires StartOf(e0) == {a} && StartOf(e1) == {b} && EndOf(e2) == {a} && EndOf(e3) == {b}
    requires StartOf(e2) == StartOf(e3) == EndOf(e0) == EndOf(e1) == {}
    ensures var events := [e0] + ([e1] + ([e2] + ([e3] + [])));
      StartedIds(events) == EndedIds(events) == {a, b}
  {
    NextIds(e0, [e1] + ([e2] + ([e3] + [])));
    NextIds(e1, [e2] + ([e3] + []));
    NextIds(e2, [e3] + []);
    NextIds(e3, []);
    assert StartedIds([]) == {} == EndedIds([]);
    hide StartedIds, EndedIds, StartOf, EndOf;
  }

  lemma {:induction false} StartsInOrder(slots: seq<Slot>, a: Slot, b: Slot, e0: Event, e1: Event, e2: Event, e3: Event)
    requires a.id in Ids(slots) && b.id in Ids(slots) && a.id != b.id
    requires !e0.Response? && !e1.Response? && !e2.Response? && !e3.Response?
    requires StartOf(e0) == {a.id} && StartOf(e1) == {b.id} && EndOf(e2) == {a.id} && EndOf(e3) == {b.id}
    requires StartOf(e2) == StartOf(e3) == EndOf(e0) == EndOf(e1) == {}
    ensures InOrder(slots, [e0] + ([e1] + []), {}, {})
    ensures InOrder(slots, [e0] + ([e1] + ([e2] + ([e3] + []))), {}, {})
  {
    assert InOrder(slots, [], {a.id, b.id}, {a.id, b.id}) && InOrder(slots, [], {a.id, b.id}, {});
    hide InOrder, Ids, StartOf, EndOf;
    var both, none: set<string> := {a.id, b.id}, {};
    assert both + {} == both && none + {} == none && none + {a.id} == {a.id} && {a.id} + {b.id} == both;
    OneMoreInOrder(slots, e3, [], both, {a.id});
    OneMoreInOrder(slots, e2, [e3] + [], both, none);
    OneMoreInOrder(slots, e1, [e2] + ([e3] + []), {a.id}, none);
    OneMoreInOrder(slots, e0, [e1] + ([e2] + ([e3] + [])), none, none);
    OneMoreInOrder(slots, e1, [], {a.id}, none);
    OneMoreInOrder(slots, e0, [e1] + [], none, none);
  }

  lemma {:induction false} CollideIds(slots: seq<Slot>, a: Slot, b: Slot)
    requires Collide(slots, a, b)
    ensures a.id != b.id && a.id != "" && b.id != ""
  {
    if a.id == b.id { SameId(slots, a, b); }
  }

  lemma {:induction false} EndsLeaveRun(t2: Tracker, a: string, b: string)
    requires a in t2.byCall && t2.byCall[a] == a && a != "" && b !in t2.byCall && t2.byNode == map[]
    requires exists p :: p in t2.pending && p.runId != a && p.runId != ""
    requires forall p | p in t2.pending :: p.name == "start"
    ensures Ended(Ended(t2, End(a, "", "end")), End(b, "", "end")).pending != []
  {
    var t3 := Ended(t2, End(a, "", "end"));
    assert Resolved(t2, End(a, "", "end")) == a;
    assert t3.pending == Dropped(t2.pending, a) && t3.byNode == map[] && b !in t3.byCall;
    NoneNamed(t3.pending, "end") by { assert "start"[0] != "end"[0]; }
    assert Resolved(t3, End(b, "", "end")) == "";
    var p :| p in t2.pending && p.runId != a && p.runId != "";
    assert p in Dropped(t3.pending, "");
  }

  lemma {:induction false} CollisionLeavesRun(slots: seq<Slot>, a: Slot, b: Slot)
    requires Collide(slots, a, b)
    ensures var events := Collision(a, b);
      && InOrder(slots, events, {}, {}) && StartedIds(events) == EndedIds(events)
      && !NothingLeft(Run(Fresh(slots), events))
  {
    CollisionInOrder(slots, a, b);
    CollideIds(slots, a, b);
    var t2 := AfterStarts(slots, a, b);
    EndsLeaveRun(t2, a.id, b.id);
    hide Choose, DistinctIds, InOrder, Started, Ended, Resolved, StartedIds, EndedIds, StartOfSlot, Run;
    FourEvents(Fresh(slots), Collision(a, b));
  }

  lemma {:induction false} FourEvents(t: Tracker, events: seq<Event>)
    requires |events| == 4
    ensures Run(t, events) == After(After(After(After(t, events[0]), events[1]), events[2]), events[3])
  {
    hide After;
    var e0, e1, e2, e3 := events[0], events[1], events[2], events[3];
    var t1 := After(t, e0);
    var t2 := After(t1, e1);
    var t3 := After(t2, e2);
    assert events[1..] == [e1, e2, e3] && [e1, e2, e3][1..] == [e2, e3] && [e2, e3][1..] == [e3] && [e3][1..] == [];
    assert Run(t, events) == Run(t1, [e1, e2, e3]);
    assert Run(t1, [e1, e2, e3]) == Run(t2, [e2, e3]);
    assert Run(t2, [e2, e3]) == Run(t3, [e3]);
    assert Run(t3, [e3]) == Run(After(t3, e3), []);
  }

  // A response can do this: one of its calls has index 1, the other, without an index, takes
  // its position.
  lemma {:induction false} PositionsCollide()
    ensures var slots := Slots([ToolCall(Some(1), "a", "tool", Some("{}")), ToolCall(None, "b", "tool", Some("{}"))], []);
      && DistinctIds(slots) && !DistinctIndices(slots)
      && InOrder(slots, Collision(slots[0], slots[1])[..2], {}, {})
      && !AllMatched(slots, Collision(slots[0], slots[1])[..2])
  {
    var slots := Slots([ToolCall(Some(1), "a", "tool", Some("{}")), ToolCall(None, "b", "tool", Some("{}"))], []);
    assert "a"[0] != "b"[0];
    assert slots == [Slot(1, "a", "tool", "{}"), Slot(1, "b", "tool", "{}")];
    hide *;
    CollisionMismatches(slots);
  }

  lemma {:induction false} CollisionMismatches(slots: seq<Slot>)
    requires |slots| == 2 && slots[0] != slots[1] && slots[0].index == slots[1].index
    requires slots[0].id != "" && slots[1].id != "" && slots[0].id != slots[1].id
    ensures DistinctIds(slots) && !DistinctIndices(slots)
    ensures InOrder(slots, Collision(slots[0], slots[1])[..2], {}, {})
    ensures !AllMatched(slots, Collision(slots[0], slots[1])[..2])
  {
    assert Collide(slots, slots[0], slots[1]);
    var events := Collision(slots[0], slots[1])[..2];
    CollisionFacts(slots, slots[0], slots[1]);
    hide InOrder, Run, Choose;
    assert events[..1] == [events[0]];
    assert !MatchedAt(Run(Fresh(slots), events[..1]), slots, events[1]);
  }
}
