/**
 The message history sent to the LLM API, and what it means for that history
 to be legal: every assistant message with tool calls is followed at once by a
 tool block that answers exactly its call ids, and no tool message stands
 anywhere else.
 */
module MessageHistory {

  // A tool call id may be absent (None) or present; an empty string counts as absent
  // wherever the code tests its truth.
  datatype CallId = NoId | Id(name: string) {
    predicate Truthy() {
      Id? && name != ""
    }
  }

  datatype Msg =
    | System(text: string)
    | Human(text: string)
    | AI(text: string, calls: seq<CallId>)
    | Tool(callId: CallId, text: string)
  {
    // An assistant message that requests tools.
    predicate Caller() {
      AI? && calls != []
    }

    function Needed(): set<CallId> {
      if AI? then set c | c in calls else {}
    }
  }

  // Length of the run of tool messages at the front.
  function ToolRun(ms: seq<Msg>): (n: nat)
    ensures n <= |ms|
    ensures forall k | 0 <= k < n :: ms[k].Tool?
    ensures n == |ms| || !ms[n].Tool?
  {
    if ms == [] || !ms[0].Tool? then 0 else 1 + ToolRun(ms[1..])
  }

  // The ids answered by the tool messages of a list.
  function AnsweredIds(ms: seq<Msg>): set<CallId> {
    set m | m in ms && m.Tool? :: m.callId
  }

  // The ids called by the assistant messages of a list.
  function CalledIds(ms: seq<Msg>): set<CallId> {
    set m, c | m in ms && m.AI? && c in m.calls :: c
  }

  predicate AllTools(ms: seq<Msg>) {
    forall m | m in ms :: m.Tool?
  }

  /* ----- the declarative specification ----- */

  // The tool messages directly after position i.
  function BlockAfter(ms: seq<Msg>, i: nat): seq<Msg>
    requires i < |ms|
  {
    ms[i + 1..i + 1 + ToolRun(ms[i + 1..])]
  }

  // The calls of the assistant message at i are answered by the block that follows it.
  ghost predicate Answered(ms: seq<Msg>, i: nat)
    requires i < |ms|
  {
    && AnsweredIds(BlockAfter(ms, i)) == ms[i].Needed()
    && forall c | c in ms[i].Needed() :: c.Truthy()
  }

  // The tool message at k continues a tool block: what stands directly before it is
  // another tool message or a message with calls.
  ghost predicate InBlock(ms: seq<Msg>, k: nat)
    requires k < |ms|
  {
    k > 0 && (ms[k - 1].Tool? || ms[k - 1].Caller())
  }

  ghost predicate Legal(ms: seq<Msg>) {
    && (forall i | 0 <= i < |ms| && ms[i].Caller() :: Answered(ms, i))
    && (forall k | 0 <= k < |ms| && ms[k].Tool? :: InBlock(ms, k))
  }

  /* ----- the structural form used in proofs ----- */

  ghost predicate BlockWF(ms: seq<Msg>)
    decreases |ms|
  {
    if ms == [] then true
    else if ms[0].Tool? then false
    else if ms[0].Caller() then
      && Answered(ms, 0)
      && BlockWF(ms[1 + ToolRun(ms[1..])..])
    else BlockWF(ms[1..])
  }

  lemma ToolRunShift(ms: seq<Msg>, n: nat, i: nat)
    requires n <= i < |ms|
    ensures ms[n..][i - n + 1..] == ms[i + 1..]
    ensures BlockAfter(ms[n..], i - n) == BlockAfter(ms, i)
    ensures Answered(ms[n..], i - n) == Answered(ms, i)
  {
    assert ms[n..][i - n + 1..] == ms[i + 1..];
    var t := ToolRun(ms[i + 1..]);
    assert ms[n..][i - n + 1..i - n + 1 + t] == ms[i + 1..i + 1 + t];
  }

  // Length of the first unit: a message with calls takes the tool run behind it along.
  function UnitLength(ms: seq<Msg>): (n: nat)
    requires ms != []
    ensures 1 <= n <= |ms|
    ensures forall k | 1 <= k < n :: ms[0].Caller() && ms[k].Tool?
  {
    if ms[0].Caller() then
      assert forall k | 1 <= k < 1 + ToolRun(ms[1..]) :: ms[k] == ms[1..][k - 1];
      1 + ToolRun(ms[1..])
    else 1
  }

  lemma LegalFromTail(ms: seq<Msg>)
    requires ms != [] && !ms[0].Tool?
    requires ms[0].Caller() ==> Answered(ms, 0)
    requires Legal(ms[UnitLength(ms)..])
    ensures Legal(ms)
  {
    hide Answered, ToolRun;
    var n := UnitLength(ms);
    var tl := ms[n..];
    forall i | 0 <= i < |ms| && ms[i].Caller() ensures Answered(ms, i) {
      if i >= n {
        ToolRunShift(ms, n, i);
        assert tl[i - n].Caller() && Answered(tl, i - n);
      }
    }
    forall k | 0 <= k < |ms| && ms[k].Tool? ensures InBlock(ms, k) {
      if k >= n { assert InBlock(tl, k - n); }
    }
  }

  lemma LegalToTail(ms: seq<Msg>)
    requires ms != [] && Legal(ms)
    ensures Legal(ms[UnitLength(ms)..])
  {
    hide Answered, ToolRun;
    var n := UnitLength(ms);
    var tl := ms[n..];
    forall i | 0 <= i < |tl| && tl[i].Caller() ensures Answered(tl, i) {
      ToolRunShift(ms, n, i + n);
      assert ms[i + n].Caller() && Answered(ms, i + n);
    }
    forall k | 0 <= k < |tl| && tl[k].Tool? ensures InBlock(tl, k) {
      assert InBlock(ms, k + n);
    }
  }

  lemma {:induction false} ToolRunStops(ms: seq<Msg>, rest: seq<Msg>)
    requires rest != [] && !rest[0].Tool?
    ensures ToolRun(ms + rest) == ToolRun(ms)
  {
    if ms == [] {
      assert ms + rest == rest;
    } else {
      assert (ms + rest)[1..] == ms[1..] + rest;
      ToolRunStops(ms[1..], rest);
    }
  }

  // What stands before a message that is no tool message is legal by itself.
  lemma LegalPrefix(ms: seq<Msg>, rest: seq<Msg>)
    requires rest != [] && !rest[0].Tool? && Legal(ms + rest)
    ensures Legal(ms)
  {
    hide ToolRun, Answered;
    var all := ms + rest;
    forall i | 0 <= i < |ms| && ms[i].Caller() ensures Answered(ms, i) {
      assert all[i] == ms[i] && Answered(all, i);
      assert all[i + 1..] == ms[i + 1..] + rest;
      ToolRunStops(ms[i + 1..], rest);
      SameBlock(ms, all, i);
    }
    forall k | 0 <= k < |ms| && ms[k].Tool? ensures InBlock(ms, k) {
      assert all[k] == ms[k] && InBlock(all, k);
    }
  }

  lemma SameBlock(ms: seq<Msg>, all: seq<Msg>, i: nat)
    requires i < |ms| && ms <= all && ToolRun(ms[i + 1..]) == ToolRun(all[i + 1..])
    ensures Answered(ms, i) == Answered(all, i)
  {
    hide ToolRun;
    assert BlockAfter(ms, i) == BlockAfter(all, i);
  }

  // The structural form is exactly the declarative one.
  lemma {:induction false} BlockWFIsLegal(ms: seq<Msg>)
    ensures BlockWF(ms) <==> Legal(ms)
    decreases |ms|
  {
    if ms == [] {
    } else if ms[0].Tool? {
      assert !InBlock(ms, 0);
    } else {
      BlockWFIsLegal(ms[UnitLength(ms)..]);
      if BlockWF(ms) { LegalFromTail(ms); }
      if Legal(ms) { LegalToTail(ms); }
    }
  }

  /* ----- taking legal lists apart and putting them together ----- */

  // A message with the tool block behind it, which answers exactly its calls.
  ghost predicate Unit(m: Msg, block: seq<Msg>) {
    && !m.Tool? && AllTools(block)
    && AnsweredIds(block) == m.Needed()
    && forall c | c in m.Needed() :: c.Truthy()
  }

  lemma Decompose(ms: seq<Msg>) returns (m: Msg, block: seq<Msg>, rest: seq<Msg>)
    requires ms != [] && BlockWF(ms)
    ensures ms == [m] + block + rest && |rest| < |ms|
    ensures Unit(m, block) && BlockWF(rest)
    ensures rest == [] || !rest[0].Tool?
  {
    var n := UnitLength(ms);
    m, block, rest := ms[0], ms[1..n], ms[n..];
    if m.Caller() {
      assert block == BlockAfter(ms, 0);
    } else {
      assert block == [];
      assert AnsweredIds(block) == {};
    }
  }

  lemma {:induction false} ToolRunConcat(block: seq<Msg>, rest: seq<Msg>)
    requires AllTools(block)
    requires rest == [] || !rest[0].Tool?
    ensures ToolRun(block + rest) == |block|
    ensures (block + rest)[..|block|] == block && (block + rest)[|block|..] == rest
  {
    if block == [] {
      assert block + rest == rest;
    } else {
      assert (block + rest)[1..] == block[1..] + rest;
      ToolRunConcat(block[1..], rest);
    }
  }

  // Tool messages behind a message are legal exactly when they answer its calls.
  lemma Compose(m: Msg, block: seq<Msg>, rest: seq<Msg>)
    requires !m.Tool? && AllTools(block) && BlockWF(rest)
    ensures BlockWF([m] + block + rest) <==> Unit(m, block)
  {
    var ms := [m] + block + rest;
    assert rest == [] || !rest[0].Tool?;
    ToolRunConcat(block, rest);
    assert ms[1..] == block + rest;
    assert ms[1 + |block|..] == rest;
    hide ToolRun;
    assert BlockAfter(ms, 0) == block;
    if !m.Caller() {
      if block == [] {
        assert AnsweredIds(block) == {};
        assert ms[1..] == rest;
      } else {
        assert block[0] in block;
        assert block[0].callId in AnsweredIds(block);
        assert ms[1..][0] == block[0];
      }
    }
  }

  lemma {:induction false} BlockWFAppend(a: seq<Msg>, b: seq<Msg>)
    requires BlockWF(a) && BlockWF(b)
    ensures BlockWF(a + b)
    decreases |a|
  {
    if a == [] {
      assert a + b == b;
    } else {
      var m, block, rest := Decompose(a);
      BlockWFAppend(rest, b);
      hide BlockWF;
      var joined := [m] + block + (rest + b);
      assert a + b == joined;
      assert BlockWF(joined) by { Compose(m, block, rest + b); }
    }
  }

  lemma IdsConcat(a: seq<Msg>, b: seq<Msg>)
    ensures AnsweredIds(a + b) == AnsweredIds(a) + AnsweredIds(b)
    ensures CalledIds(a + b) == CalledIds(a) + CalledIds(b)
  {
  }

  lemma UnitIds(m: Msg, block: seq<Msg>, rest: seq<Msg>)
    requires !m.Tool? && AllTools(block)
    ensures AnsweredIds([m] + block + rest) == AnsweredIds(block) + AnsweredIds(rest)
    ensures CalledIds([m] + block + rest) == m.Needed() + CalledIds(rest)
  {
    IdsConcat([m], block);
    IdsConcat([m] + block, rest);
    assert CalledIds([m]) == m.Needed();
    assert CalledIds(block) == {} == AnsweredIds([m]);
  }

  // In a legal list the called and the answered ids are the same.
  lemma {:induction false} LegalIdsMatch(ms: seq<Msg>)
    requires BlockWF(ms)
    ensures AnsweredIds(ms) == CalledIds(ms)
    decreases |ms|
  {
    if ms != [] {
      var m, block, rest := Decompose(ms);
      LegalIdsMatch(rest);
      UnitIds(m, block, rest);
    }
  }

  // In a legal list every call has an id.
  lemma {:induction false} LegalCallsTruthy(ms: seq<Msg>)
    requires BlockWF(ms)
    ensures forall m, c | m in ms && c in m.Needed() :: c.Truthy()
    decreases |ms|
  {
    if ms != [] {
      var m, block, rest := Decompose(ms);
      LegalCallsTruthy(rest);
      assert forall x | x in ms :: x == m || x in block || x in rest;
    }
  }

  // What remains when a list is cut at k and the tool run at the cut is dropped.
  function AfterCut(ms: seq<Msg>, k: nat): seq<Msg>
    requires k <= |ms|
  {
    ms[k + ToolRun(ms[k..])..]
  }

  lemma CutInsideUnit(m: Msg, block: seq<Msg>, rest: seq<Msg>, k: nat)
    requires AllTools(block) && 0 < k <= 1 + |block|
    requires rest == [] || !rest[0].Tool?
    ensures AfterCut([m] + block + rest, k) == rest
  {
    var ms := [m] + block + rest;
    var cut := block[k - 1..];
    assert ms[k..] == cut + rest;
    ToolRunConcat(cut, rest);
    assert ms[k + |cut|..] == rest;
  }

  lemma CutBehind(a: seq<Msg>, b: seq<Msg>, k: nat)
    requires |a| <= k <= |a + b|
    ensures AfterCut(a + b, k) == AfterCut(b, k - |a|)
  {
    assert (a + b)[k..] == b[k - |a|..];
  }

  // Cutting a legal list anywhere leaves a run of tool messages followed by a legal list.
  lemma {:induction false} LegalSuffix(ms: seq<Msg>, k: nat)
    requires BlockWF(ms) && k <= |ms|
    ensures BlockWF(AfterCut(ms, k))
    decreases |ms|
  {
    if k == 0 {
      assert ms[0..] == ms;
    } else {
      var m, block, rest := Decompose(ms);
      if k <= 1 + |block| {
        CutInsideUnit(m, block, rest, k);
      } else {
        CutBehind([m] + block, rest, k);
        LegalSuffix(rest, k - 1 - |block|);
      }
    }
  }
}
