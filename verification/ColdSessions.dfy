/**
 The sessions a manager keeps in memory: hot ones, which have a graph or a consumer, and a
 bounded cache of cold ones in least-recently-used order.
 */
module ColdSessions {
  import opened Outcomes
  import opened Sequences

  type SessionId = string

  datatype Session = Session(hasGraph: bool, active: bool, dirty: bool)
  {
    predicate InUse() { hasGraph || active }
    predicate Droppable() { !InUse() && !dirty }
    predicate Kept() { !InUse() && dirty }
  }

  // A session as it comes from disk.
  const LOADED := Session(false, false, false)

  function KeptWeight(sessions: map<SessionId, Session>): SessionId -> nat {
    (x: SessionId) => if x in sessions && sessions[x].Kept() then 1 else 0
  }

  function IfKept(sessions: map<SessionId, Session>): SessionId -> seq<SessionId> {
    (x: SessionId) => if x in sessions && !sessions[x].hasGraph && !sessions[x].active && sessions[x].dirty then [x] else []
  }

  // The dirty ones, from the oldest on.
  function Dirty(sessions: map<SessionId, Session>, xs: seq<SessionId>): seq<SessionId> {
    FlatMap(IfKept(sessions), xs)
  }

  // The cache stays in its order: what has not been looked at comes first, then the dirty
  // ones that have, from the oldest on. When all have been looked at and one more is met, it
  // goes behind the others.
  ghost predicate InTurn(before: map<SessionId, Session>, cold: seq<SessionId>, n: nat, lru: seq<SessionId>)
    requires n <= |cold|
  {
    var dirty := Dirty(before, cold[..n]);
    lru == cold[n..] + dirty || (n == |cold| && dirty != [] && lru == dirty[1..] + [dirty[0]])
  }

  // What becomes of a cache once its first n entries have been looked at: the dirty ones
  // among them stay, the ones in use are hot from then on, the others are dropped.
  ghost predicate CacheAfter(before: map<SessionId, Session>, cold: seq<SessionId>, n: nat, lru: seq<SessionId>)
    requires n <= |cold| && forall x | x in cold :: x in before
  {
    && NoDuplicates(lru)
    && (forall x :: x in lru <==> x in cold[n..] || (x in cold[..n] && before[x].Kept()))
    && |lru| == |cold| - n + SumBy(KeptWeight(before), cold[..n])
  }

  ghost predicate SessionsAfter(before: map<SessionId, Session>, cold: seq<SessionId>, n: nat, sessions: map<SessionId, Session>)
    requires n <= |cold| && forall x | x in cold :: x in before
  {
    && (forall x :: x in sessions <==> x in before && !(x in cold[..n] && before[x].Droppable()))
    && (forall x | x in sessions :: sessions[x] == before[x])
  }

  ghost predicate Examined(before: map<SessionId, Session>, cold: seq<SessionId>, n: nat,
                           sessions: map<SessionId, Session>, lru: seq<SessionId>)
    requires n <= |cold| && forall x | x in cold :: x in before
  {
    NoDuplicates(cold) && CacheAfter(before, cold, n, lru) && SessionsAfter(before, cold, n, sessions)
  }

  // What eviction comes to, having looked at the first n: the cache fits, or it looked at all
  // and only dirty ones are left; it stops as soon as the cache fits.
  ghost predicate Evicted(before: map<SessionId, Session>, cold: seq<SessionId>, capacity: nat, n: nat,
                          sessions: map<SessionId, Session>, lru: seq<SessionId>)
    requires n <= |cold| && forall x | x in cold :: x in before
  {
    && Examined(before, cold, n, sessions, lru) && InTurn(before, cold, n, lru)
    && (|lru| <= capacity || (n == |cold| && forall x | x in lru :: x in sessions && sessions[x].Kept()))
    && (n > 0 ==> |cold| > capacity && |lru| >= capacity)
  }

  // Eviction drops only sessions that nobody uses and that are not dirty. No hot session is
  // dropped, and when all have been looked at only dirty ones are left.
  lemma EvictionIsSafe(before: map<SessionId, Session>, cold: seq<SessionId>, n: nat,
                       sessions: map<SessionId, Session>, lru: seq<SessionId>)
    requires n <= |cold| && (forall x | x in cold :: x in before) && Examined(before, cold, n, sessions, lru)
    ensures NoDuplicates(lru) && forall x | x in lru :: x in sessions
    ensures forall x | x in before && x !in sessions :: x in cold && before[x].Droppable()
    ensures forall x | x in before && x !in cold :: x in sessions && x !in lru
    ensures forall x | x in sessions :: sessions[x] == before[x] && (x in cold && x !in lru ==> sessions[x].InUse())
    ensures n == |cold| ==> forall x | x in lru :: sessions[x].Kept()
  {
    hide SumBy, NoDuplicates;
    assert cold == cold[..n] + cold[n..];
    forall x | x in cold[n..] ensures x !in cold[..n] {
      PartsAreDisjoint(cold, n, x);
    }
  }

  lemma PartsAreDisjoint(cold: seq<SessionId>, n: nat, x: SessionId)
    requires NoDuplicates(cold) && n <= |cold| && x in cold[n..]
    ensures x !in cold[..n]
  {}

  // The dirty ones among those looked at, in some order.
  ghost predicate KeptOnes(before: map<SessionId, Session>, cold: seq<SessionId>, n: nat, kept: seq<SessionId>)
    requires n <= |cold| && forall x | x in cold :: x in before
  {
    && NoDuplicates(kept)
    && (forall x :: x in kept <==> x in cold[..n] && before[x].Kept())
    && |kept| == SumBy(KeptWeight(before), cold[..n])
  }

  // While it is being looked at, the cache is the rest in its order, then the dirty ones found.
  lemma RestAndKept(before: map<SessionId, Session>, cold: seq<SessionId>, n: nat, lru: seq<SessionId>, kept: seq<SessionId>)
    requires n <= |cold| && (forall x | x in cold :: x in before) && NoDuplicates(cold)
    requires KeptOnes(before, cold, n, kept) && lru == cold[n..] + kept
    ensures CacheAfter(before, cold, n, lru)
    ensures lru != [] ==> Removed(lru, lru[0]) == lru[1..]
  {
    hide SumBy;
    forall x | x in cold[n..] ensures x !in cold[..n] {
      PartsAreDisjoint(cold, n, x);
    }
    if lru != [] { OldestFirst(lru); }
  }

  lemma NothingSeen(before: map<SessionId, Session>, cold: seq<SessionId>)
    requires NoDuplicates(cold) && forall x | x in cold :: x in before
    ensures KeptOnes(before, cold, 0, []) && SessionsAfter(before, cold, 0, before)
    ensures cold == cold[0..] + [] && Dirty(before, cold[..0]) == []
  {}

  lemma OldestFirst(lru: seq<SessionId>)
    requires lru != [] && NoDuplicates(lru)
    ensures Removed(lru, lru[0]) == lru[1..]
  {
    assert lru[0] !in lru[1..];
  }

  // One more looked at.
  lemma KeptGrows(before: map<SessionId, Session>, cold: seq<SessionId>, n: nat, kept: seq<SessionId>)
    requires n < |cold| && (forall x | x in cold :: x in before) && NoDuplicates(cold) && KeptOnes(before, cold, n, kept)
    ensures KeptOnes(before, cold, n + 1, if before[cold[n]].Kept() then kept + [cold[n]] else kept)
  {
    var x := cold[n];
    SumByStep(KeptWeight(before), cold, n);
    assert x in cold[n..] && x !in cold[..n] by { PartsAreDisjoint(cold, n, x); }
    hide SumBy, NoDuplicates;
    assert cold[..n + 1] == cold[..n] + [x];
    KeptStaysDistinct(kept, x);
  }

  lemma DirtyGrows(before: map<SessionId, Session>, cold: seq<SessionId>, n: nat)
    requires n < |cold| && cold[n] in before
    ensures Dirty(before, cold[..n + 1]) == Dirty(before, cold[..n]) + if before[cold[n]].Kept() then [cold[n]] else []
  {
    FlatMapStep(IfKept(before), cold, n);
  }

  lemma KeptStaysDistinct(kept: seq<SessionId>, x: SessionId)
    requires NoDuplicates(kept)
    ensures x !in kept ==> NoDuplicates(kept + [x])
  {}

  lemma RestShrinks(cold: seq<SessionId>, n: nat, kept: seq<SessionId>, x: SessionId)
    requires n < |cold|
    ensures (cold[n..] + kept)[0] == cold[n]
    ensures (cold[n..] + kept)[1..] == cold[n + 1..] + kept
    ensures (cold[n..] + kept)[1..] + [x] == cold[n + 1..] + (kept + [x])
  {}

  lemma LookAtSession(before: map<SessionId, Session>, cold: seq<SessionId>, n: nat, sessions: map<SessionId, Session>)
    requires n < |cold| && (forall x | x in cold :: x in before) && NoDuplicates(cold) && SessionsAfter(before, cold, n, sessions)
    ensures cold[n] in sessions && sessions[cold[n]] == before[cold[n]]
    ensures before[cold[n]].Droppable() ==> SessionsAfter(before, cold, n + 1, sessions - {cold[n]})
    ensures !before[cold[n]].Droppable() ==> SessionsAfter(before, cold, n + 1, sessions)
  {
    var x := cold[n];
    assert cold[..n + 1] == cold[..n] + [x];
    assert x in cold[n..] && x !in cold[..n] by { PartsAreDisjoint(cold, n, x); }
  }

  // A second look at a session found dirty only moves it to the end.
  lemma LookAgain(before: map<SessionId, Session>, cold: seq<SessionId>, sessions: map<SessionId, Session>, kept: seq<SessionId>)
    requires (forall x | x in cold :: x in before) && kept != []
    requires KeptOnes(before, cold, |cold|, kept) && SessionsAfter(before, cold, |cold|, sessions)
    ensures cold[|cold|..] + kept == kept
    ensures kept[0] in sessions && sessions[kept[0]].Kept()
    ensures KeptOnes(before, cold, |cold|, kept[1..] + [kept[0]])
  {
    hide SumBy;
    assert cold[..|cold|] == cold && kept[0] in kept;
    SameMembers(kept);
  }

  lemma SameMembers(kept: seq<SessionId>)
    requires kept != [] && NoDuplicates(kept)
    ensures NoDuplicates(kept[1..] + [kept[0]]) && forall x :: x in kept[1..] + [kept[0]] <==> x in kept
  {
    assert kept == [kept[0]] + kept[1..];
    forall x ensures x in kept[1..] + [kept[0]] <==> x in kept {
      assert x in kept <==> x == kept[0] || x in kept[1..];
    }
  }

  /* ----- one look, and the last one ----- */

  // The state of the loop after n looks.
  ghost predicate Looking(before: map<SessionId, Session>, cold: seq<SessionId>, n: nat,
                          sessions: map<SessionId, Session>, lru: seq<SessionId>, kept: seq<SessionId>)
  {
    && n <= |cold| && (forall x | x in cold :: x in before) && NoDuplicates(cold)
    && KeptOnes(before, cold, n, kept) && SessionsAfter(before, cold, n, sessions)
    && kept == Dirty(before, cold[..n]) && lru == cold[n..] + kept
  }

  lemma StartLooking(before: map<SessionId, Session>, cold: seq<SessionId>)
    requires NoDuplicates(cold) && forall x | x in cold :: x in before
    ensures Looking(before, cold, 0, before, cold, [])
  {
    NothingSeen(before, cold);
    hide KeptOnes, SessionsAfter, Dirty, NoDuplicates;
  }

  // The next one is the oldest.
  lemma LookNext(before: map<SessionId, Session>, cold: seq<SessionId>, n: nat,
                 sessions: map<SessionId, Session>, lru: seq<SessionId>, kept: seq<SessionId>)
    requires Looking(before, cold, n, sessions, lru, kept) && n < |cold|
    ensures lru != [] && lru[0] == cold[n] && cold[n] in sessions && cold[n] in before && sessions[cold[n]] == before[cold[n]]
    ensures before[cold[n]].Kept() ==>
              Looking(before, cold, n + 1, sessions, Removed(lru, cold[n]) + [cold[n]], kept + [cold[n]])
    ensures before[cold[n]].InUse() ==> Looking(before, cold, n + 1, sessions, lru[1..], kept)
    ensures before[cold[n]].Droppable() ==> Looking(before, cold, n + 1, sessions - {cold[n]}, lru[1..], kept)
  {
    KeptGrows(before, cold, n, kept);
    DirtyGrows(before, cold, n);
    LookAtSession(before, cold, n, sessions);
    RestShrinks(cold, n, kept, cold[n]);
    RestAndKept(before, cold, n, lru, kept);
    hide KeptOnes, SessionsAfter, Removed, Dirty, CacheAfter, NoDuplicates;
  }

  // When all have been looked at, a further look changes nothing but the order.
  lemma LookBack(before: map<SessionId, Session>, cold: seq<SessionId>,
                 sessions: map<SessionId, Session>, lru: seq<SessionId>, kept: seq<SessionId>)
    requires Looking(before, cold, |cold|, sessions, lru, kept) && lru != []
    ensures lru[0] in sessions && sessions[lru[0]].Kept() && lru == kept
    ensures Removed(lru, lru[0]) + [lru[0]] == kept[1..] + [kept[0]]
    ensures |Removed(lru, lru[0]) + [lru[0]]| == |lru|
    ensures Examined(before, cold, |cold|, sessions, kept[1..] + [kept[0]]) && InTurn(before, cold, |cold|, kept[1..] + [kept[0]])
  {
    LookAgain(before, cold, sessions, kept);
    RestAndKept(before, cold, |cold|, lru, kept);
    RestAndKept(before, cold, |cold|, kept[1..] + [kept[0]], kept[1..] + [kept[0]]);
    assert cold[|cold|..] == [];
    assert cold[..|cold|] == cold;
    hide KeptOnes, SessionsAfter, Removed, Dirty, CacheAfter, NoDuplicates;
  }

  lemma LookedAt(before: map<SessionId, Session>, cold: seq<SessionId>, n: nat,
                 sessions: map<SessionId, Session>, lru: seq<SessionId>, kept: seq<SessionId>)
    requires Looking(before, cold, n, sessions, lru, kept)
    ensures n <= |cold| && (forall x | x in cold :: x in before) && |lru| == |cold| - n + |kept|
    ensures Examined(before, cold, n, sessions, lru) && InTurn(before, cold, n, lru)
  {
    RestAndKept(before, cold, n, lru, kept);
    hide KeptOnes, SessionsAfter, Removed, Dirty, CacheAfter, NoDuplicates;
  }

  class SessionManager {
    var sessions: map<SessionId, Session>
    var lru: seq<SessionId>
    const capacity: nat

    // The cache lists distinct sessions that are in memory.
    ghost predicate Valid()
      reads this
    {
      NoDuplicates(lru) && forall x | x in lru :: x in sessions
    }

    // In memory, and not up for eviction.
    predicate Hot(x: SessionId)
      reads this
    {
      x in sessions && x !in lru
    }

    constructor (capacity: nat)
      ensures Valid() && this.capacity == capacity && sessions == map[] && lru == []
    {
      this.capacity, sessions, lru := capacity, map[], [];
    }

    method MoveToEnd(x: SessionId)
      requires x in lru
      modifies this`lru
      ensures lru == Removed(old(lru), x) + [x]
    {
      lru := Removed(lru, x) + [x];
    }

    // Looks at cached sessions from the oldest on, until the cache fits or there are only
    // dirty ones.
    method Evict() returns (ghost seen: nat)
      requires Valid()
      modifies this
      ensures Valid()
      ensures seen <= |old(lru)| && Evicted(old(sessions), old(lru), capacity, seen, sessions, lru)
      ensures forall x | old(Hot(x)) :: Hot(x)
    {
      hide Looking, Examined, InTurn, Removed, NoDuplicates;
      var dirtyExamined := 0;
      seen := 0;
      ghost var before, cold := sessions, lru;
      ghost var kept := [];
      StartLooking(sessions, lru);
      LookedAt(before, cold, 0, sessions, lru, kept);
      while |lru| > capacity
        invariant Looking(before, cold, seen, sessions, lru, kept) && seen <= |cold|
        invariant Examined(before, cold, seen, sessions, lru) && InTurn(before, cold, seen, lru)
        invariant |lru| == |cold| - seen + |kept| && dirtyExamined == |kept|
        invariant seen > 0 ==> |cold| > capacity && |lru| >= capacity
        decreases |lru|, |lru| - dirtyExamined
      {
        if seen < |cold| {
          LookNext(before, cold, seen, sessions, lru, kept);
        } else {
          LookBack(before, cold, sessions, lru, kept);
        }
        var x := lru[0];
        var session := sessions[x];
        if session.InUse() {
          lru := lru[1..];
          seen := seen + 1;
        } else if session.dirty {
          MoveToEnd(x);
          dirtyExamined := dirtyExamined + 1;
          if seen < |cold| {
            kept, seen := kept + [x], seen + 1;
            LookedAt(before, cold, seen, sessions, lru, kept);
          }
          if dirtyExamined >= |lru| { break; }
        } else {
          lru := lru[1..];
          sessions := sessions - {x};
          seen := seen + 1;
        }
        LookedAt(before, cold, seen, sessions, lru, kept);
      }
      EvictionIsSafe(before, cold, seen, sessions, lru);
    }

    // A session in memory is handed out, and if it is cold it becomes the most recent. One
    // on disk is loaded as a cold session, which makes room for itself.
    method GetSession(x: SessionId, stored: bool) returns (r: Option<Session>, ghost seen: nat)
      requires Valid()
      modifies this
      ensures Valid()
      ensures r == (if x in old(sessions) then Some(old(sessions)[x]) else if stored then Some(LOADED) else None)
      ensures x in old(sessions) || !stored ==> sessions == old(sessions)
      ensures x in old(sessions) || !stored ==> lru == if x in old(lru) then Removed(old(lru), x) + [x] else old(lru)
      ensures x !in old(sessions) && stored ==>
        seen <= |old(lru)| + 1 && Evicted(old(sessions)[x := LOADED], old(lru) + [x], capacity, seen, sessions, lru)
      // while there is room it is the most recent one
      ensures x !in old(sessions) && stored && |old(lru)| < capacity ==>
        lru == old(lru) + [x] && sessions == old(sessions)[x := LOADED]
      // it can lose its place at once: it stays exactly when the dirty sessions leave room
      ensures x !in old(sessions) && stored ==>
        (x in sessions <==> SumBy(KeptWeight(old(sessions)), old(lru)) < capacity)
      ensures forall y | old(Hot(y)) :: Hot(y)
    {
      if x in sessions {
        if x in lru {
          MovedIsDistinct(lru, x);
          MoveToEnd(x);
        }
        return Some(sessions[x]), 0;
      }
      if !stored { return None, 0; }
      ghost var before, cold := sessions[x := LOADED], lru + [x];
      sessions := sessions[x := LOADED];
      lru := lru + [x];
      seen := Evict();
      if |cold| <= capacity { NothingEvicted(before, cold, capacity, sessions, lru); }
      NewcomerStaysIff(old(sessions), old(lru), x, seen, sessions, lru, capacity);
      r := Some(LOADED);
    }

    // A session that gets a graph or a consumer is hot, whether it was cached or not.
    method Register(x: SessionId, session: Session)
      requires Valid()
      modifies this
      ensures Valid() && Hot(x)
      ensures sessions == old(sessions)[x := session] && lru == Removed(old(lru), x)
      ensures forall y | old(Hot(y)) :: Hot(y)
    {
      RemovedIsDistinct(lru, x);
      lru := Removed(lru, x);
      sessions := sessions[x := session];
    }
  }

  lemma MovedIsDistinct(xs: seq<SessionId>, x: SessionId)
    requires NoDuplicates(xs) && x in xs
    ensures NoDuplicates(Removed(xs, x) + [x]) && forall y :: y in Removed(xs, x) + [x] <==> y in xs
  {
    RemovedIsDistinct(xs, x);
    KeptStaysDistinct(Removed(xs, x), x);
  }

  lemma {:induction false} KeptWeightIsSmall(sessions: map<SessionId, Session>, xs: seq<SessionId>)
    ensures SumBy(KeptWeight(sessions), xs) <= |xs|
  {
    if xs != [] { KeptWeightIsSmall(sessions, xs[1..]); }
  }

  lemma {:induction false} SameKeptWeight(a: map<SessionId, Session>, b: map<SessionId, Session>, xs: seq<SessionId>)
    requires forall x | x in xs :: x in a && x in b && a[x] == b[x]
    ensures SumBy(KeptWeight(a), xs) == SumBy(KeptWeight(b), xs)
  {
    if xs != [] {
      assert xs[0] in xs && forall x | x in xs[1..] :: x in xs;
      SameKeptWeight(a, b, xs[1..]);
    }
  }

  lemma NothingEvicted(before: map<SessionId, Session>, cold: seq<SessionId>, capacity: nat,
                       sessions: map<SessionId, Session>, lru: seq<SessionId>)
    requires (forall x | x in cold :: x in before) && |cold| <= capacity
    requires Evicted(before, cold, capacity, 0, sessions, lru)
    ensures lru == cold && sessions == before
  {
    assert cold[..0] == [] && cold[0..] == cold;
  }

  // A session just loaded is the last to be looked at, and is dropped when it is.
  lemma NewcomerIsLast(sessions: map<SessionId, Session>, lru: seq<SessionId>, x: SessionId, seen: nat, sessions': map<SessionId, Session>)
    requires x !in sessions && (forall y | y in lru :: y in sessions) && seen <= |lru| + 1
    requires SessionsAfter(sessions[x := LOADED], lru + [x], seen, sessions')
    ensures x in sessions' <==> seen <= |lru|
  {
    var cold := lru + [x];
    if seen <= |lru| {
      assert cold[..seen] == lru[..seen];
    } else {
      assert cold[..seen] == cold && cold[|lru|] == x;
    }
  }

  lemma NewcomerStaysIff(sessions: map<SessionId, Session>, lru: seq<SessionId>, x: SessionId, seen: nat,
                         sessions': map<SessionId, Session>, lru': seq<SessionId>, capacity: nat)
    requires x !in sessions && (forall y | y in lru :: y in sessions) && seen <= |lru| + 1
    requires Evicted(sessions[x := LOADED], lru + [x], capacity, seen, sessions', lru')
    ensures x in sessions' <==> SumBy(KeptWeight(sessions), lru) < capacity
  {
    NewcomerIsLast(sessions, lru, x, seen, sessions');
    var before, cold := sessions[x := LOADED], lru + [x];
    assert |lru'| == |cold| - seen + SumBy(KeptWeight(before), cold[..seen]);
    hide NoDuplicates, CacheAfter, SessionsAfter, SumBy, InTurn;
    SameKeptWeight(before, sessions, lru);
    if seen == |lru| + 1 {
      assert cold[..seen] == cold;
      SumBySnoc(KeptWeight(before), lru, x);
    } else {
      assert cold[..seen] == lru[..seen];
      SumByConcat(KeptWeight(before), lru[..seen], lru[seen..]);
      assert lru == lru[..seen] + lru[seen..];
      KeptWeightIsSmall(before, lru[seen..]);
    }
  }

  // One dirty session fills a cache of capacity 1, so that a new one is dropped as soon as it
  // is loaded, and no other way of evicting would keep it.
  lemma NewcomerCanBeDropped(seen: nat, sessions: map<SessionId, Session>, lru: seq<SessionId>)
    requires seen <= 2
    ensures var dirty := map["a" := Session(false, false, true)];
      && Evicted(dirty["b" := LOADED], ["a"] + ["b"], 1, 2, dirty, ["a"]) && "b" !in dirty
      && (Evicted(dirty["b" := LOADED], ["a"] + ["b"], 1, seen, sessions, lru) ==> "b" !in sessions)
  {
    var dirty := map["a" := Session(false, false, true)];
    var before, cold := dirty["b" := LOADED], ["a"] + ["b"];
    assert "a"[0] != "b"[0];
    assert cold[..2] == cold == ["a"] + ["b"] && cold[2..] == [];
    SumBySingle(KeptWeight(dirty), "a");
    SumBySingle(KeptWeight(before), "a");
    SumBySnoc(KeptWeight(before), ["a"], "b");
    FlatMapSingle(IfKept(before), "a");
    FlatMapSnoc(IfKept(before), ["a"], "b");
    assert Dirty(before, cold[..2]) == ["a"];
    assert Evicted(before, cold, 1, 2, dirty, ["a"]);
    hide Evicted, SumBy;
    if Evicted(before, cold, 1, seen, sessions, lru) {
      NewcomerStaysIff(dirty, ["a"], "b", seen, sessions, lru, 1);
    }
  }
}
