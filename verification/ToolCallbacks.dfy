/**
 Matching the start and end callbacks of parallel tool calls with the calls of the model
 response they belong to.
 */
module ToolCallbacks {
  import opened Outcomes
  import opened Sequences

  /* ----- slots ----- */

  // One call of the model. Arguments are in canonical form throughout.
  datatype Slot = Slot(index: int, id: string, name: string, args: string)

  // A call of the complete response; no index when it carries none that reads as a number.
  datatype ToolCall = ToolCall(index: Option<int>, id: string, name: string, args: Option<string>)

  // What streaming has collected, by index and in order of arrival.
  datatype Streamed = Streamed(index: int, id: string, name: string, args: string)

  function FindStreamed(streamed: seq<Streamed>, index: int): (r: Option<Streamed>)
    ensures r.None? ==> forall k | 0 <= k < |streamed| :: streamed[k].index != index
    ensures r.Some? ==> exists k: nat :: FirstAt(streamed, index, k) && r.value == streamed[k]
  {
    assert forall k | 0 < k < |streamed| :: streamed[k] == streamed[1..][k - 1];
    assert forall k: nat :: streamed != [] && streamed[0].index != index && FirstAt(streamed[1..], index, k) ==> FirstAt(streamed, index, k + 1);
    assert streamed != [] && streamed[0].index == index ==> FirstAt(streamed, index, 0);
    if streamed == [] then None
    else if streamed[0].index == index then Some(streamed[0])
    else FindStreamed(streamed[1..], index)
  }

  // k is the first place in the stream that has the index.
  predicate FirstAt(streamed: seq<Streamed>, index: int, k: nat) {
    k < |streamed| && streamed[k].index == index && forall j | 0 <= j < k :: streamed[j].index != index
  }

  function IndexOf(call: ToolCall, position: nat): int {
    match call.index case Some(i) => i case None => position
  }

  // A call with its gaps filled from the stream.
  function SlotOf(call: ToolCall, position: nat, streamed: seq<Streamed>): Slot {
    var index := IndexOf(call, position);
    match FindStreamed(streamed, index)
    case Some(s) =>
      Slot(index, if call.id != "" then call.id else s.id, if call.name != "" then call.name else s.name,
           if call.args.Some? then call.args.value else s.args)
    case None => Slot(index, call.id, call.name, if call.args.Some? then call.args.value else "{}")
  }

  function CallSlots(calls: seq<ToolCall>, streamed: seq<Streamed>): (r: seq<Slot>)
    ensures |r| == |calls| && forall i | 0 <= i < |calls| :: r[i] == SlotOf(calls[i], i, streamed)
  {
    seq(|calls|, i requires 0 <= i < |calls| => SlotOf(calls[i], i, streamed))
  }

  // The streamed calls whose index the response does not have.
  function Unseen(streamed: seq<Streamed>, seen: set<int>): seq<Slot> {
    if streamed == [] then []
    else
      var s := streamed[0];
      (if s.index in seen then [] else [Slot(s.index, s.id, s.name, s.args)]) + Unseen(streamed[1..], seen)
  }

  function Indices(slots: seq<Slot>): set<int> {
    set s | s in slots :: s.index
  }

  function Slots(calls: seq<ToolCall>, streamed: seq<Streamed>): seq<Slot> {
    CallSlots(calls, streamed) + Unseen(streamed, Indices(CallSlots(calls, streamed)))
  }

  ghost predicate DistinctIndices(slots: seq<Slot>) {
    forall i, j | 0 <= i < j < |slots| :: slots[i].index != slots[j].index
  }

  // Distinct ids, none of them empty.
  ghost predicate DistinctIds(slots: seq<Slot>) {
    && (forall s | s in slots :: s.id != "")
    && forall i, j | 0 <= i < j < |slots| :: slots[i].id != slots[j].id
  }

  // A call of the response keeps what it says itself and takes what it leaves open from the
  // stream; without an index of its own its position counts.
  ghost predicate Filled(call: ToolCall, position: nat, streamed: seq<Streamed>, slot: Slot) {
    && (call.index.Some? ==> slot.index == call.index.value) && (call.index.None? ==> slot.index == position)
    && (call.id != "" ==> slot.id == call.id) && (call.name != "" ==> slot.name == call.name)
    && (call.args.Some? ==> slot.args == call.args.value)
    && (forall k: nat | FirstAt(streamed, slot.index, k) ::
          && (call.id == "" ==> slot.id == streamed[k].id) && (call.name == "" ==> slot.name == streamed[k].name)
          && (call.args.None? ==> slot.args == streamed[k].args))
    && ((forall k | 0 <= k < |streamed| :: streamed[k].index != slot.index) ==>
          slot.id == call.id && slot.name == call.name && (call.args.None? ==> slot.args == "{}"))
  }

  lemma SlotIsFilled(call: ToolCall, position: nat, streamed: seq<Streamed>)
    ensures Filled(call, position, streamed, SlotOf(call, position, streamed))
  {
    var index := IndexOf(call, position);
    forall k: nat | FirstAt(streamed, index, k) ensures FindStreamed(streamed, index) == Some(streamed[k]) {
      OnlyOneFirst(streamed, index, k);
    }
    hide FindStreamed;
  }

  lemma OnlyOneFirst(streamed: seq<Streamed>, index: int, k: nat)
    requires FirstAt(streamed, index, k)
    ensures forall j: nat | FirstAt(streamed, index, j) :: j == k
  {}

  function AsSlot(s: Streamed): seq<Slot> {
    [Slot(s.index, s.id, s.name, s.args)]
  }

  // What was only streamed, as often as it was and in its order.
  lemma {:induction false} UnseenIsRest(streamed: seq<Streamed>, seen: set<int>, s: Slot)
    ensures IsSubsequence(Unseen(streamed, seen), FlatMap(AsSlot, streamed))
    ensures multiset(Unseen(streamed, seen))[s] == if s.index in seen then 0 else multiset(FlatMap(AsSlot, streamed))[s]
  {
    if streamed != [] {
      UnseenIsRest(streamed[1..], seen, s);
      var x, rest, all := AsSlot(streamed[0])[0], Unseen(streamed[1..], seen), FlatMap(AsSlot, streamed[1..]);
      assert FlatMap(AsSlot, streamed) == [x] + all && ([x] + all)[1..] == all;
      if streamed[0].index in seen {
        assert Unseen(streamed, seen) == rest;
      } else {
        assert Unseen(streamed, seen) == [x] + rest && ([x] + rest)[1..] == rest;
      }
    }
  }

  // The calls of the response, filled in, and then what was only streamed.
  ghost predicate Arranged(calls: seq<ToolCall>, streamed: seq<Streamed>, slots: seq<Slot>) {
    && |slots| >= |calls| && (forall i | 0 <= i < |calls| :: Filled(calls[i], i, streamed, slots[i]))
    && IsSubsequence(slots[|calls|..], FlatMap(AsSlot, streamed))
    && forall s :: multiset(slots[|calls|..])[s] ==
         if s.index in Indices(slots[..|calls|]) then 0 else multiset(FlatMap(AsSlot, streamed))[s]
  }

  lemma SlotsAreArranged(calls: seq<ToolCall>, streamed: seq<Streamed>)
    ensures Arranged(calls, streamed, Slots(calls, streamed))
  {
    hide Filled, SlotOf, IsSubsequence, FlatMap, Unseen;
    var own, all := CallSlots(calls, streamed), Slots(calls, streamed);
    forall i | 0 <= i < |calls| ensures Filled(calls[i], i, streamed, all[i]) { SlotIsFilled(calls[i], i, streamed); }
    assert all[..|calls|] == own && all[|calls|..] == Unseen(streamed, Indices(own));
    UnseenIsRest(streamed, Indices(own), Slot(0, "", "", ""));
    forall s: Slot ensures multiset(all[|calls|..])[s] == if s.index in Indices(own) then 0 else multiset(FlatMap(AsSlot, streamed))[s] {
      UnseenIsRest(streamed, Indices(own), s);
    }
  }

  method BuildSlots(calls: seq<ToolCall>, streamed: seq<Streamed>) returns (slots: seq<Slot>)
    ensures slots == Slots(calls, streamed)
    ensures Arranged(calls, streamed, slots)
  {
    SlotsAreArranged(calls, streamed);
    hide Arranged, SlotOf, Unseen;
    slots := [];
    var seen: set<int> := {};
    for i := 0 to |calls|
      invariant slots == CallSlots(calls, streamed)[..i] && seen == Indices(slots)
    {
      var slot := SlotOf(calls[i], i, streamed);
      slots := slots + [slot];
      seen := seen + {slot.index};
    }
    assert CallSlots(calls, streamed)[..|calls|] == CallSlots(calls, streamed);
    ghost var front := slots;
    assert streamed[0..] == streamed;
    for i := 0 to |streamed|
      invariant slots + Unseen(streamed[i..], seen) == front + Unseen(streamed, seen)
    {
      UnseenStep(slots, streamed, i, seen);
      var s := streamed[i];
      if s.index !in seen {
        slots := slots + [Slot(s.index, s.id, s.name, s.args)];
      }
    }
    UnseenNothing(streamed[|streamed|..], seen);
  }

  lemma UnseenNothing(streamed: seq<Streamed>, seen: set<int>)
    requires streamed == []
    ensures Unseen(streamed, seen) == []
  {}

  lemma UnseenStep(slots: seq<Slot>, streamed: seq<Streamed>, i: nat, seen: set<int>)
    requires i < |streamed|
    ensures var s := streamed[i];
      slots + Unseen(streamed[i..], seen) ==
      (slots + if s.index in seen then [] else [Slot(s.index, s.id, s.name, s.args)]) + Unseen(streamed[i + 1..], seen)
  {
    assert streamed[i..][0] == streamed[i] && streamed[i..][1..] == streamed[i + 1..];
    var one := if streamed[i].index in seen then [] else [Slot(streamed[i].index, streamed[i].id, streamed[i].name, streamed[i].args)];
    var rest := Unseen(streamed[i + 1..], seen);
    assert Unseen(streamed[i..], seen) == one + rest;
    hide Unseen;
    assert slots + (one + rest) == (slots + one) + rest;
  }

  lemma {:induction false} UnseenIndices(streamed: seq<Streamed>, seen: set<int>)
    requires forall i, j | 0 <= i < j < |streamed| :: streamed[i].index != streamed[j].index
    ensures DistinctIndices(Unseen(streamed, seen))
    ensures forall s | s in Unseen(streamed, seen) :: s.index !in seen && exists t :: t in streamed && t.index == s.index
  {
    if streamed != [] {
      UnseenIndices(streamed[1..], seen);
      var rest := Unseen(streamed[1..], seen);
      forall s | s in rest ensures s.index != streamed[0].index {
        var t :| t in streamed[1..] && t.index == s.index;
      }
      forall s | s in Unseen(streamed, seen) ensures s.index !in seen && exists t :: t in streamed && t.index == s.index {
        if s in rest {
          var t :| t in streamed[1..] && t.index == s.index;
          assert t in streamed;
        } else {
          assert streamed[0] in streamed;
        }
      }
    }
  }

  // The slots of a response have distinct indices exactly when its own calls have; a call
  // without an index takes its position and may run into the index of another.
  lemma SlotsAreDistinctIff(calls: seq<ToolCall>, streamed: seq<Streamed>)
    requires forall i, j | 0 <= i < j < |streamed| :: streamed[i].index != streamed[j].index
    ensures DistinctIndices(Slots(calls, streamed)) <==>
              forall i, j | 0 <= i < j < |calls| :: IndexOf(calls[i], i) != IndexOf(calls[j], j)
  {
    var own := CallSlots(calls, streamed);
    var more := Unseen(streamed, Indices(own));
    UnseenIndices(streamed, Indices(own));
    forall i | 0 <= i < |calls| ensures own[i].index == IndexOf(calls[i], i) && Slots(calls, streamed)[i] == own[i] {}
    forall s, t | s in own && t in more ensures s.index != t.index {
      assert s.index in Indices(own);
    }
    if DistinctIndices(own) {
      var all := Slots(calls, streamed);
      forall i, j | 0 <= i < j < |all| ensures all[i].index != all[j].index {
        if i < |own| <= j { assert all[i] in own && all[j] in more; }
      }
    }
  }

  /* ----- start callbacks ----- */

  // What a start callback carries: the call ids and indices found in it, in order of
  // precedence; the id of an input that is itself a tool call; its name and arguments; the id
  // of its run, and a suffix that makes run ids without a call id unique.
  datatype Start = Start(
    callIds: seq<string>, inputId: string, indices: seq<Option<int>>, name: string, args: string,
    nodeRunId: string, suffix: string)

  function FirstNonEmpty(xs: seq<string>): string {
    if xs == [] then "" else if xs[0] != "" then xs[0] else FirstNonEmpty(xs[1..])
  }

  function FirstIndex(xs: seq<Option<int>>): Option<int> {
    if xs == [] then None else if xs[0].Some? then xs[0] else FirstIndex(xs[1..])
  }

  function ExplicitId(e: Start): string {
    if FirstNonEmpty(e.callIds) != "" then FirstNonEmpty(e.callIds) else e.inputId
  }

  // The first call id that is not empty counts, and the id of the input when there is none.
  lemma {:induction false} ExplicitIdIs(e: Start, i: nat)
    ensures (forall k | 0 <= k < |e.callIds| :: e.callIds[k] == "") ==> ExplicitId(e) == e.inputId
    ensures i < |e.callIds| && e.callIds[i] != "" && (forall k | 0 <= k < i :: e.callIds[k] == "") ==> ExplicitId(e) == e.callIds[i]
  {
    FirstNonEmptyIs(e.callIds, i);
  }

  lemma {:induction false} FirstNonEmptyIs(xs: seq<string>, i: nat)
    ensures (forall k | 0 <= k < |xs| :: xs[k] == "") ==> FirstNonEmpty(xs) == ""
    ensures i < |xs| && xs[i] != "" && (forall k | 0 <= k < i :: xs[k] == "") ==> FirstNonEmpty(xs) == xs[i]
  {
    if xs != [] && xs[0] == "" {
      assert forall k | 0 < k < |xs| :: xs[k] == xs[1..][k - 1];
      FirstNonEmptyIs(xs[1..], if i > 0 then i - 1 else 0);
    }
  }

  // The first index there is.
  lemma {:induction false} FirstIndexIs(xs: seq<Option<int>>, i: nat)
    ensures (forall k | 0 <= k < |xs| :: xs[k].None?) ==> FirstIndex(xs) == None
    ensures i < |xs| && xs[i].Some? && (forall k | 0 <= k < i :: xs[k].None?) ==> FirstIndex(xs) == xs[i]
  {
    if xs != [] && xs[0].None? {
      assert forall k | 0 < k < |xs| :: xs[k] == xs[1..][k - 1];
      FirstIndexIs(xs[1..], if i > 0 then i - 1 else 0);
    }
  }

  // The first slot that is not claimed and satisfies p.
  function FirstFree(slots: seq<Slot>, claimed: set<int>, p: Slot -> bool): (r: Option<Slot>)
    ensures r.Some? ==> r.value in slots && r.value.index !in claimed && p(r.value)
    ensures r.None? ==> forall s | s in slots && s.index !in claimed :: !p(s)
  {
    if slots == [] then None
    else if slots[0].index !in claimed && p(slots[0]) then Some(slots[0])
    else FirstFree(slots[1..], claimed, p)
  }

  function IdIs(id: string): Slot -> bool { (s: Slot) => s.id == id }
  function IndexIs(index: int): Slot -> bool { (s: Slot) => s.index == index }
  function CallIs(name: string, args: string): Slot -> bool { (s: Slot) => s.name == name && s.args == args }
  function NameIs(name: string): Slot -> bool { (s: Slot) => s.name == name }
  function AnySlot(): Slot -> bool { (s: Slot) => true }

  function OrElse(a: Option<Slot>, b: Option<Slot>): Option<Slot> {
    if a.Some? then a else b
  }

  // By id, by index, by name and arguments, by name alone, the first that is free; when none
  // is, a slot is made up.
  function Choose(e: Start, slots: seq<Slot>, claimed: set<int>): Slot {
    var byId := if ExplicitId(e) == "" then None else FirstFree(slots, claimed, IdIs(ExplicitId(e)));
    var byIndex := match FirstIndex(e.indices) case None => None case Some(i) => FirstFree(slots, claimed, IndexIs(i));
    var byCall := FirstFree(slots, claimed, CallIs(e.name, e.args));
    var byName := FirstFree(slots, claimed, NameIs(e.name));
    var any := FirstFree(slots, claimed, AnySlot());
    match OrElse(byId, OrElse(byIndex, OrElse(byCall, OrElse(byName, any))))
    case Some(s) => s
    case None => Slot(|claimed|, "", e.name, e.args)
  }

  // How well a slot fits a callback; the lower the better.
  function Rank(e: Start, s: Slot): nat {
    if ExplicitId(e) != "" && s.id == ExplicitId(e) then 0
    else if FirstIndex(e.indices) == Some(s.index) then 1
    else if s.name == e.name && s.args == e.args then 2
    else if s.name == e.name then 3
    else 4
  }

  // The chosen slot is the first of those free ones that fit best; without a free one it is
  // made up of what the callback says.
  lemma ChosenFitsBest(e: Start, slots: seq<Slot>, claimed: set<int>)
    ensures (forall s | s in slots :: s.index in claimed) ==> Choose(e, slots, claimed) == Slot(|claimed|, "", e.name, e.args)
    ensures (exists s :: s in slots && s.index !in claimed) ==> exists i: nat :: FitsBest(e, slots, claimed, i, Choose(e, slots, claimed))
  {
    if exists s :: s in slots && s.index !in claimed {
      var p, n := Deciding(e, slots, claimed);
      hide *;
      FirstOfRank(e, slots, claimed, p, n);
    }
  }

  // The test that decides, with the rank of what passes it.
  lemma Deciding(e: Start, slots: seq<Slot>, claimed: set<int>) returns (p: Slot -> bool, n: nat)
    requires exists s :: s in slots && s.index !in claimed
    ensures FirstFree(slots, claimed, p).Some? && Choose(e, slots, claimed) == FirstFree(slots, claimed, p).value
    ensures forall s | s in slots && s.index !in claimed :: Rank(e, s) >= n && (p(s) <==> Rank(e, s) == n)
  {
    var id, index := ExplicitId(e), FirstIndex(e.indices);
    var byId := if id == "" then None else FirstFree(slots, claimed, IdIs(id));
    var byIndex := if index.None? then None else FirstFree(slots, claimed, IndexIs(index.value));
    assert Choose(e, slots, claimed) ==
           OrElse(byId, OrElse(byIndex, OrElse(FirstFree(slots, claimed, CallIs(e.name, e.args)),
             OrElse(FirstFree(slots, claimed, NameIs(e.name)), FirstFree(slots, claimed, AnySlot()))))).value;
    hide Choose, FirstFree, FirstIndex, ExplicitId;
    if byId.Some? { return IdIs(id), 0; }
    if byIndex.Some? { return IndexIs(index.value), 1; }
    if FirstFree(slots, claimed, CallIs(e.name, e.args)).Some? { return CallIs(e.name, e.args), 2; }
    if FirstFree(slots, claimed, NameIs(e.name)).Some? { return NameIs(e.name), 3; }
    return AnySlot(), 4;
  }

  ghost predicate FitsBest(e: Start, slots: seq<Slot>, claimed: set<int>, i: nat, s: Slot) {
    && i < |slots| && slots[i] == s && s.index !in claimed
    && forall j | 0 <= j < |slots| && slots[j].index !in claimed ::
         Rank(e, s) < Rank(e, slots[j]) || (Rank(e, s) == Rank(e, slots[j]) && i <= j)
  }

  lemma {:induction false} FirstFreeIsFirst(slots: seq<Slot>, claimed: set<int>, p: Slot -> bool) returns (i: nat)
    requires FirstFree(slots, claimed, p).Some?
    ensures i < |slots| && slots[i] == FirstFree(slots, claimed, p).value
    ensures forall j | 0 <= j < i :: slots[j].index in claimed || !p(slots[j])
  {
    if slots[0].index !in claimed && p(slots[0]) {
      i := 0;
    } else {
      var k := FirstFreeIsFirst(slots[1..], claimed, p);
      i := k + 1;
      assert forall j | 0 < j < i :: slots[j] == slots[1..][j - 1];
    }
  }

  lemma FirstOfRank(e: Start, slots: seq<Slot>, claimed: set<int>, p: Slot -> bool, n: nat)
    requires forall s | s in slots && s.index !in claimed :: Rank(e, s) >= n && (p(s) <==> Rank(e, s) == n)
    requires FirstFree(slots, claimed, p).Some?
    ensures exists i: nat :: FitsBest(e, slots, claimed, i, FirstFree(slots, claimed, p).value)
  {
    var found := FirstFree(slots, claimed, p).value;
    var i := FirstFreeIsFirst(slots, claimed, p);
    hide FirstFree, Rank;
    assert FitsBest(e, slots, claimed, i, found);
  }

  // A slot of the response is chosen only while its index is free, and one is made up only
  // when none is.
  lemma ChosenIsFree(e: Start, slots: seq<Slot>, claimed: set<int>)
    ensures var s := Choose(e, slots, claimed);
      if s in slots && s.index !in claimed then true
      else s.id == "" && forall t | t in slots :: t.index in claimed
  {}

  // An explicit id decides, whatever else the callback carries and whatever came before.
  lemma ChosenById(e: Start, slots: seq<Slot>, claimed: set<int>, s: Slot)
    requires DistinctIds(slots) && s in slots && s.index !in claimed && ExplicitId(e) == s.id
    ensures Choose(e, slots, claimed) == s
  {
    assert s.id != "";
    var found := FirstFree(slots, claimed, IdIs(ExplicitId(e)));
    SameId(slots, found.value, s);
  }

  lemma SameId(slots: seq<Slot>, a: Slot, b: Slot)
    requires DistinctIds(slots) && a in slots && b in slots && a.id == b.id
    ensures a == b
  {}

  lemma SameIndex(slots: seq<Slot>, a: Slot, b: Slot)
    requires DistinctIndices(slots) && a in slots && b in slots && a.index == b.index
    ensures a == b
  {}

  // No free slot has the id the callback carries, if it carries any.
  ghost predicate NoneById(e: Start, slots: seq<Slot>, claimed: set<int>) {
    ExplicitId(e) == "" || forall t | t in slots && t.index !in claimed :: t.id != ExplicitId(e)
  }

  // Next an explicit index decides, and then the name alone rather than the order of slots.
  lemma ChosenByIndexOrName(e: Start, slots: seq<Slot>, claimed: set<int>, s: Slot)
    requires DistinctIndices(slots) && NoneById(e, slots, claimed) && s in slots && s.index !in claimed
    ensures FirstIndex(e.indices) == Some(s.index) ==> Choose(e, slots, claimed) == s
    ensures FirstIndex(e.indices) == None && s.name == e.name ==> Choose(e, slots, claimed).name == e.name
  {
    if FirstIndex(e.indices) == Some(s.index) {
      var found := FirstFree(slots, claimed, IndexIs(s.index));
      SameIndex(slots, found.value, s);
    }
  }

  // Without id and index, name and arguments decide when they are those of one slot only.
  lemma ChosenByCall(e: Start, slots: seq<Slot>, claimed: set<int>, s: Slot)
    requires ExplicitId(e) == "" && FirstIndex(e.indices) == None
    requires s in slots && s.index !in claimed && s.name == e.name && s.args == e.args
    requires forall t | t in slots && t.name == e.name && t.args == e.args :: t == s
    ensures Choose(e, slots, claimed) == s
  {}

  /* ----- pending runs and their aliases ----- */

  datatype Pending = Pending(runId: string, name: string, callId: string)

  function FindRun(runs: seq<Pending>, runId: string): Option<Pending> {
    if runs == [] then None
    else if runs[0].runId == runId then Some(runs[0])
    else FindRun(runs[1..], runId)
  }

  function FirstNamed(runs: seq<Pending>, name: string): Option<Pending> {
    if runs == [] then None
    else if runs[0].name == name then Some(runs[0])
    else FirstNamed(runs[1..], name)
  }

  // Assignment to a dictionary: an existing key keeps its place.
  function Assigned(runs: seq<Pending>, run: Pending): seq<Pending> {
    if runs == [] then [run]
    else if runs[0].runId == run.runId then [run] + runs[1..]
    else [runs[0]] + Assigned(runs[1..], run)
  }

  // A pending run of the same id is replaced where it stands; a new one comes last.
  lemma {:induction false} AssignedAt(runs: seq<Pending>, run: Pending, k: nat)
    ensures (forall i | 0 <= i < |runs| :: runs[i].runId != run.runId) ==> Assigned(runs, run) == runs + [run]
    ensures k < |runs| && runs[k].runId == run.runId && (forall i | 0 <= i < k :: runs[i].runId != run.runId) ==>
              Assigned(runs, run) == runs[k := run]
  {
    if runs != [] && runs[0].runId != run.runId {
      var rest := runs[1..];
      assert forall i | 0 < i < |runs| :: runs[i] == rest[i - 1];
      AssignedAt(rest, run, if k > 0 then k - 1 else 0);
      assert [runs[0]] + (rest + [run]) == runs + [run];
    }
  }

  // The other runs stay as they were, in their order.
  lemma {:induction false} DroppedKeepsOthers(runs: seq<Pending>, runId: string, p: Pending)
    ensures IsSubsequence(Dropped(runs, runId), runs)
    ensures multiset(Dropped(runs, runId))[p] == if p.runId == runId then 0 else multiset(runs)[p]
  {
    if runs != [] {
      DroppedKeepsOthers(runs[1..], runId, p);
      assert runs == [runs[0]] + runs[1..];
      if runs[0].runId != runId { assert Dropped(runs, runId)[1..] == Dropped(runs[1..], runId); }
    }
  }

  ghost predicate FirstNamedAt(runs: seq<Pending>, name: string, k: nat) {
    k < |runs| && runs[k].name == name && forall j | 0 <= j < k :: runs[j].name != name
  }

  lemma {:induction false} FirstNamedIs(runs: seq<Pending>, name: string)
    ensures forall k: nat | FirstNamedAt(runs, name, k) :: FirstNamed(runs, name) == Some(runs[k])
    ensures (forall p | p in runs :: p.name != name) ==> FirstNamed(runs, name) == None
  {
    if runs != [] && runs[0].name != name {
      var rest := runs[1..];
      FirstNamedIs(rest, name);
      assert forall k | 0 < k < |runs| :: runs[k] == rest[k - 1];
      forall k: nat | FirstNamedAt(runs, name, k) ensures FirstNamed(runs, name) == Some(runs[k]) {
        assert FirstNamedAt(rest, name, k - 1);
      }
    }
  }

  lemma {:induction false} FindRunIs(runs: seq<Pending>, runId: string)
    ensures FindRun(runs, runId).None? ==> forall p | p in runs :: p.runId != runId
    ensures FindRun(runs, runId).Some? ==> FindRun(runs, runId).value in runs && FindRun(runs, runId).value.runId == runId
  {
    if runs != [] { FindRunIs(runs[1..], runId); }
  }

  lemma RunIdsCons(run: Pending, runs: seq<Pending>)
    ensures RunIds([run] + runs) == {run.runId} + RunIds(runs)
  {
    forall x ensures x in RunIds([run] + runs) <==> x in {run.runId} + RunIds(runs) {
      if x == run.runId { assert run in [run] + runs; }
      if x in RunIds(runs) {
        var r :| r in runs && r.runId == x;
        assert r in [run] + runs;
      }
    }
  }

  lemma {:induction false} AssignedRuns(runs: seq<Pending>, run: Pending)
    ensures RunIds(Assigned(runs, run)) == RunIds(runs) + {run.runId}
  {
    if runs == [] {
      RunIdsCons(run, []);
      assert [run] + [] == [run];
    } else {
      RunIdsCons(runs[0], runs[1..]);
      RunIdsCons(run, runs[1..]);
      AssignedRuns(runs[1..], run);
      RunIdsCons(runs[0], Assigned(runs[1..], run));
      hide RunIds;
      assert runs == [runs[0]] + runs[1..];
    }
  }

  function RunIds(runs: seq<Pending>): set<string> {
    set r | r in runs :: r.runId
  }

  function Dropped(runs: seq<Pending>, runId: string): (r: seq<Pending>)
    ensures forall x :: x in r <==> x in runs && x.runId != runId
  {
    if runs == [] then []
    else if runs[0].runId == runId then Dropped(runs[1..], runId)
    else [runs[0]] + Dropped(runs[1..], runId)
  }

  datatype Tracker = Tracker(
    slots: seq<Slot>, claimed: set<int>,
    byCall: map<string, string>, byNode: map<string, string>,   // aliases of run ids
    pending: seq<Pending>)

  // The end of a model response: its slots replace the ones before; runs stay pending.
  function Announced(t: Tracker, slots: seq<Slot>): Tracker {
    t.(slots := slots, claimed := {})
  }

  function RunId(s: Slot, e: Start): string {
    if s.id != "" then s.id else e.nodeRunId + "_" + e.suffix
  }

  function Started(t: Tracker, e: Start): Tracker {
    var s := Choose(e, t.slots, t.claimed);
    var runId := RunId(s, e);
    Tracker(t.slots, t.claimed + {s.index},
            if s.id != "" then t.byCall[s.id := runId] else t.byCall,
            if e.nodeRunId != "" then t.byNode[e.nodeRunId := runId] else t.byNode,
            Assigned(t.pending, Pending(runId, e.name, s.id)))
  }

  datatype End = End(callId: string, nodeRunId: string, name: string)

  // By call id, by run, by name; else the id of the run itself.
  function Resolved(t: Tracker, e: End): string {
    if e.callId in t.byCall && t.byCall[e.callId] != "" then t.byCall[e.callId]
    else if e.nodeRunId in t.byNode && t.byNode[e.nodeRunId] != "" then t.byNode[e.nodeRunId]
    else match FirstNamed(t.pending, e.name)
      case Some(p) => p.runId
      case None => e.nodeRunId
  }

  function Unaliased(aliases: map<string, string>, runId: string): map<string, string> {
    map k | k in aliases && aliases[k] != runId :: aliases[k]
  }

  // A resolved run is no longer pending, and nothing points at it any more.
  function Ended(t: Tracker, e: End): Tracker {
    var runId := Resolved(t, e);
    t.(byCall := Unaliased(t.byCall, runId), byNode := Unaliased(t.byNode, runId), pending := Dropped(t.pending, runId))
  }

  datatype Event = Response(slots: seq<Slot>) | ToolStart(start: Start) | ToolEnd(end: End)

  function After(t: Tracker, e: Event): Tracker {
    match e
    case Response(slots) => Announced(t, slots)
    case ToolStart(start) => Started(t, start)
    case ToolEnd(end) => Ended(t, end)
  }

  // Every alias names a run that is pending.
  ghost predicate AliasesPending(t: Tracker) {
    && (forall k | k in t.byCall :: t.byCall[k] != "" && t.byCall[k] in RunIds(t.pending))
    && (forall k | k in t.byNode :: t.byNode[k] != "" && t.byNode[k] in RunIds(t.pending))
  }

  lemma EventKeepsAliases(t: Tracker, e: Event)
    requires AliasesPending(t)
    ensures AliasesPending(After(t, e))
  {
    if e.ToolEnd? {
      var runId := Resolved(t, e.end);
      forall r | r in RunIds(t.pending) && r != runId ensures r in RunIds(Dropped(t.pending, runId)) {
        var p :| p in t.pending && p.runId == r;
        assert p in Dropped(t.pending, runId);
      }
    } else if e.ToolStart? {
      var slot := Choose(e.start, t.slots, t.claimed);
      AssignedRuns(t.pending, Pending(RunId(slot, e.start), e.start.name, slot.id));
      hide Choose, Assigned, RunIds;
    }
  }

  function Run(t: Tracker, events: seq<Event>): Tracker
    decreases |events|
  {
    if events == [] then t else Run(After(t, events[0]), events[1..])
  }

  // In every run, with any events in any order, aliases only point at runs still pending.
  lemma {:induction false} RunKeepsAliases(t: Tracker, events: seq<Event>)
    requires AliasesPending(t)
    ensures AliasesPending(Run(t, events))
    decreases |events|
  {
    if events != [] {
      EventKeepsAliases(t, events[0]);
      RunKeepsAliases(After(t, events[0]), events[1..]);
    }
  }

  /* ----- the tracker a stream keeps ----- */

  method WithoutRun(aliases: map<string, string>, runId: string) returns (r: map<string, string>)
    ensures r == Unaliased(aliases, runId)
  {
    r := aliases;
    var keys := aliases.Keys;
    while keys != {}
      invariant keys <= aliases.Keys
      invariant r == map k | k in aliases && (k in keys || aliases[k] != runId) :: aliases[k]
      decreases |keys|
    {
      var k :| k in keys;
      if aliases[k] == runId { r := r - {k}; }
      keys := keys - {k};
    }
  }

  lemma TakenOut(aliases: map<string, string>, k: string)
    requires k in aliases
    ensures Unaliased(aliases - {k}, aliases[k]) == Unaliased(aliases, aliases[k])
  {}

  lemma AliasesAreNamed(t: Tracker)
    requires AliasesPending(t)
    ensures forall k | k in t.byCall :: t.byCall[k] != ""
    ensures forall k | k in t.byNode :: t.byNode[k] != ""
  {}

  // What an end callback does: the call id decides which run has ended, then the graph run, then
  // the first pending run of that name; the run and all that points at it go, and nothing else.
  ghost predicate Finishes(t: Tracker, e: End, runId: string, t': Tracker) {
    && EndsRun(t, e, runId)
    && t'.slots == t.slots && t'.claimed == t.claimed
    && LosesRun(t.byCall, t'.byCall, runId) && LosesRun(t.byNode, t'.byNode, runId)
    && IsSubsequence(t'.pending, t.pending)
    && (forall p :: multiset(t'.pending)[p] == if p.runId == runId then 0 else multiset(t.pending)[p])
  }

  ghost predicate EndsRun(t: Tracker, e: End, runId: string) {
    && (e.callId in t.byCall ==> runId == t.byCall[e.callId])
    && (e.callId !in t.byCall && e.nodeRunId in t.byNode ==> runId == t.byNode[e.nodeRunId])
    && (e.callId !in t.byCall && e.nodeRunId !in t.byNode ==>
          && (forall k: nat | FirstNamedAt(t.pending, e.name, k) :: runId == t.pending[k].runId)
          && ((forall p | p in t.pending :: p.name != e.name) ==> runId == e.nodeRunId))
  }

  ghost predicate LosesRun(aliases: map<string, string>, left: map<string, string>, runId: string) {
    && (forall k :: k in left <==> k in aliases && aliases[k] != runId)
    && (forall k | k in left :: left[k] == aliases[k])
  }

  lemma ResolvedEnds(t: Tracker, e: End)
    requires AliasesPending(t)
    ensures EndsRun(t, e, Resolved(t, e))
  {
    FirstNamedIs(t.pending, e.name);
    AliasesAreNamed(t);
    hide AliasesPending, FirstNamed, FirstNamedAt;
  }

  lemma UnaliasedLoses(aliases: map<string, string>, runId: string)
    ensures LosesRun(aliases, Unaliased(aliases, runId), runId)
  {}

  lemma EndFinishes(t: Tracker, e: End)
    requires AliasesPending(t)
    ensures Finishes(t, e, Resolved(t, e), Ended(t, e))
  {
    var runId := Resolved(t, e);
    ResolvedEnds(t, e);
    UnaliasedLoses(t.byCall, runId);
    UnaliasedLoses(t.byNode, runId);
    DroppedKeepsOthers(t.pending, runId, Pending("", "", ""));
    forall p: Pending ensures multiset(Dropped(t.pending, runId))[p] == if p.runId == runId then 0 else multiset(t.pending)[p] {
      DroppedKeepsOthers(t.pending, runId, p);
    }
    hide Dropped, Resolved, AliasesPending, IsSubsequence, EndsRun, LosesRun, Unaliased;
  }

  class ToolCallTracker {
    var slots: seq<Slot>
    var claimed: set<int>
    var byCall: map<string, string>
    var byNode: map<string, string>
    var pending: seq<Pending>

    function State(): Tracker
      reads this
    {
      Tracker(slots, claimed, byCall, byNode, pending)
    }

    constructor ()
      ensures State() == Tracker([], {}, map[], map[], []) && AliasesPending(State())
    {
      slots, claimed, byCall, byNode, pending := [], {}, map[], map[], [];
    }

    method OnResponse(calls: seq<ToolCall>, streamed: seq<Streamed>)
      requires AliasesPending(State())
      modifies this`slots, this`claimed
      ensures State() == After(old(State()), Response(Slots(calls, streamed))) && AliasesPending(State())
      ensures Arranged(calls, streamed, slots) && claimed == {} && pending == old(pending)
    {
      slots := BuildSlots(calls, streamed);
      claimed := {};
    }

    method OnToolStart(e: Start) returns (slot: Slot, runId: string)
      requires AliasesPending(State())
      modifies this`claimed, this`byCall, this`byNode, this`pending
      ensures slot == Choose(e, old(slots), old(claimed)) && runId == RunId(slot, e)
      ensures State() == After(old(State()), ToolStart(e)) && AliasesPending(State())
      // the run has the call id, or an id of its own, and can be found by call and by graph run
      ensures slot.id != "" ==> runId == slot.id && byCall == old(byCall)[slot.id := runId]
      ensures slot.id == "" ==> runId == e.nodeRunId + "_" + e.suffix && byCall == old(byCall)
      ensures byNode == if e.nodeRunId == "" then old(byNode) else old(byNode)[e.nodeRunId := runId]
      ensures slots == old(slots) && claimed == old(claimed) + {slot.index}
      ensures (forall p | p in old(pending) :: p.runId != runId) ==> pending == old(pending) + [Pending(runId, e.name, slot.id)]
    {
      AssignedAt(pending, Pending(RunId(Choose(e, slots, claimed), e), e.name, Choose(e, slots, claimed).id), 0);
      hide Choose, AliasesPending;
      EventKeepsAliases(State(), ToolStart(e));
      slot := Choose(e, slots, claimed);
      claimed := claimed + {slot.index};
      runId := RunId(slot, e);
      if slot.id != "" { byCall := byCall[slot.id := runId]; }
      if e.nodeRunId != "" { byNode := byNode[e.nodeRunId := runId]; }
      pending := Assigned(pending, Pending(runId, e.name, slot.id));
    }

    method OnToolEnd(e: End) returns (runId: string, run: Option<Pending>)
      requires AliasesPending(State())
      modifies this`byCall, this`byNode, this`pending
      ensures runId == Resolved(old(State()), e) && run == FindRun(old(pending), runId)
      ensures State() == After(old(State()), ToolEnd(e)) && AliasesPending(State())
      ensures Finishes(old(State()), e, runId, State())
    {
      ghost var before := State();
      EventKeepsAliases(before, ToolEnd(e));
      AliasesAreNamed(before);
      EndFinishes(before, e);
      hide Finishes, Dropped;
      hide AliasesPending, Unaliased, FirstNamed;
      runId := "";
      if e.callId in byCall {
        runId := byCall[e.callId];
        TakenOut(byCall, e.callId);
        byCall := byCall - {e.callId};
      }
      if runId == "" && e.nodeRunId in byNode {
        runId := byNode[e.nodeRunId];
        TakenOut(byNode, e.nodeRunId);
        byNode := byNode - {e.nodeRunId};
      }
      if runId == "" {
        var named := FirstNamed(pending, e.name);
        runId := if named.Some? then named.value.runId else e.nodeRunId;
      }
      byCall := WithoutRun(byCall, runId);
      byNode := WithoutRun(byNode, runId);
      run := FindRun(pending, runId);
      pending := Dropped(pending, runId);
    }
  }
}
